/** The rating summary: counters gathered in any order, and the laws that tie them together. */
module CourierRatings {
  import opened Common
  import opened CourierDomain

  type Ratings = map<string, Rating>

  datatype Scores = Scores(one: nat, two: nat, three: nat, four: nat, five: nat)

  datatype Tags = Tags(onTime: nat, polite: nat, careful: nat, delayed: nat, rude: nat, damaged: nat, other: nat)

  datatype Summary = Summary(count: nat, total: int, low: nat, scores: Scores, tags: Tags, last: int)

  const NOTHING := Summary(0, 0, 0, Scores(0, 0, 0, 0, 0), Tags(0, 0, 0, 0, 0, 0, 0), ZERO_TIME)

  /** The ratings a courier can have: accepted ones, stamped with a time. */
  ghost predicate RatingsOk(ratings: Ratings) {
    forall k | k in ratings :: Kept(ratings[k])
  }

  ghost predicate Kept(r: Rating) {
    AcceptableRating(r) && r.createdAt != ZERO_TIME
  }

  ghost predicate Distinct(tags: seq<Tag>) {
    forall i | 0 <= i < |tags| :: tags[i] !in tags[..i]
  }

  lemma KeptFacts(ratings: Ratings, k: string)
    requires RatingsOk(ratings) && k in ratings
    ensures 1 <= ratings[k].score <= 5 && ratings[k].createdAt != ZERO_TIME && Distinct(ratings[k].tags)
  {
    assert Kept(ratings[k]);
  }

  // ------------------------------------------------------------- what a summary means

  function Matching(ratings: Ratings, keys: set<string>, f: Rating -> bool): set<string>
    requires keys <= ratings.Keys
  {
    set k | k in keys && f(ratings[k])
  }

  function Scored(v: int): Rating -> bool { (r: Rating) => r.score == v }

  function Low(): Rating -> bool { (r: Rating) => r.score < 3 }

  function Tagged(t: Tag): Rating -> bool { (r: Rating) => t in r.tags }

  ghost function N(ratings: Ratings, keys: set<string>, f: Rating -> bool): nat
    requires keys <= ratings.Keys
  {
    |Matching(ratings, keys, f)|
  }

  ghost function ScoresOf(ratings: Ratings, keys: set<string>): Scores
    requires keys <= ratings.Keys
  {
    Scores(N(ratings, keys, Scored(1)), N(ratings, keys, Scored(2)), N(ratings, keys, Scored(3)),
           N(ratings, keys, Scored(4)), N(ratings, keys, Scored(5)))
  }

  ghost function TagsOf(ratings: Ratings, keys: set<string>): Tags
    requires keys <= ratings.Keys
  {
    Tags(N(ratings, keys, Tagged(OnTime)), N(ratings, keys, Tagged(Polite)), N(ratings, keys, Tagged(CarefulHandling)),
         N(ratings, keys, Tagged(DelayedDelivery)), N(ratings, keys, Tagged(RudeBehavior)),
           N(ratings, keys, Tagged(DamagedOrder)),
         N(ratings, keys, Tagged(OtherIssue)))
  }

  ghost predicate LatestOf(last: int, ratings: Ratings, keys: set<string>)
    requires keys <= ratings.Keys
  {
    && (keys == {} ==> last == ZERO_TIME)
    && (keys != {} ==> exists k :: k in keys && ratings[k].createdAt == last)
    && (forall k | k in keys :: ratings[k].createdAt <= last)
  }

  /** The sum of the scores. */
  ghost function Total(ratings: Ratings, keys: set<string>): int
    requires keys <= ratings.Keys
  {
    if keys == {} then 0
    else
      var k :| k in keys;
      ratings[k].score + Total(ratings, keys - {k})
  }

  /** Every counter is the number of ratings it stands for. */
  ghost predicate Describes(s: Summary, ratings: Ratings, keys: set<string>)
    requires keys <= ratings.Keys
  {
    && s.count == |keys|
    && s.total == Total(ratings, keys)
    && s.low == N(ratings, keys, Low())
    && s.scores == ScoresOf(ratings, keys)
    && s.tags == TagsOf(ratings, keys)
    && LatestOf(s.last, ratings, keys)
  }

  // -------------------------------------------------------------------- gathering it

  function BumpScore(s: Scores, score: int): Scores {
    match score
    case 1 => s.(one := s.one + 1)
    case 2 => s.(two := s.two + 1)
    case 3 => s.(three := s.three + 1)
    case 4 => s.(four := s.four + 1)
    case 5 => s.(five := s.five + 1)
    case _ => s
  }

  function BumpTag(t: Tags, tag: Tag): Tags {
    match tag
    case OnTime => t.(onTime := t.onTime + 1)
    case Polite => t.(polite := t.polite + 1)
    case CarefulHandling => t.(careful := t.careful + 1)
    case DelayedDelivery => t.(delayed := t.delayed + 1)
    case RudeBehavior => t.(rude := t.rude + 1)
    case DamagedOrder => t.(damaged := t.damaged + 1)
    case OtherIssue => t.(other := t.other + 1)
    case UnknownTag(_) => t
  }

  /** The counters after one more rating: each tag it carries counts once. */
  function AddTags(t: Tags, tags: seq<Tag>): Tags {
    Tags(t.onTime + Bit(OnTime in tags), t.polite + Bit(Polite in tags), t.careful + Bit(CarefulHandling in tags),
         t.delayed + Bit(DelayedDelivery in tags), t.rude + Bit(RudeBehavior in tags),
           t.damaged + Bit(DamagedOrder in tags),
         t.other + Bit(OtherIssue in tags))
  }

  lemma OneMoreTag(t: Tags, tags: seq<Tag>, tag: Tag)
    requires tag !in tags
    ensures AddTags(t, tags + [tag]) == BumpTag(AddTags(t, tags), tag)
  {}

  method CountTags(t: Tags, tags: seq<Tag>) returns (t': Tags)
    requires Distinct(tags)
    ensures t' == AddTags(t, tags)
  {
    t' := t;
    for i := 0 to |tags|
      invariant t' == AddTags(t, tags[..i])
    {
      assert tags[..i + 1] == tags[..i] + [tags[i]];
      OneMoreTag(t, tags[..i], tags[i]);
      t' := BumpTag(t', tags[i]);
    }
    assert tags[..|tags|] == tags;
  }

  lemma OneMore(ratings: Ratings, keys: set<string>, k: string, f: Rating -> bool)
    requires keys <= ratings.Keys && k in ratings && k !in keys
    ensures N(ratings, keys + {k}, f) == N(ratings, keys, f) + Bit(f(ratings[k]))
  {
    if f(ratings[k]) {
      assert Matching(ratings, keys + {k}, f) == Matching(ratings, keys, f) + {k};
    } else {
      assert Matching(ratings, keys + {k}, f) == Matching(ratings, keys, f);
    }
  }

  /** Adding up may start with any rating. */
  lemma {:induction false} TotalGrows(ratings: Ratings, keys: set<string>, k: string)
    requires keys <= ratings.Keys && k in ratings && k !in keys
    ensures Total(ratings, keys + {k}) == Total(ratings, keys) + ratings[k].score
    decreases |keys|
  {
    var all := keys + {k};
    var j :| j in all && Total(ratings, all) == ratings[j].score + Total(ratings, all - {j});
    if j == k {
      assert all - {j} == keys;
    } else {
      var rest := keys - {j};
      assert all - {j} == rest + {k} && keys == rest + {j};
      TotalGrows(ratings, rest, k);
      TotalGrows(ratings, rest, j);
    }
  }

  lemma ScoresGrow(ratings: Ratings, keys: set<string>, k: string)
    requires keys <= ratings.Keys && k in ratings && k !in keys
    requires 1 <= ratings[k].score <= 5
    ensures ScoresOf(ratings, keys + {k}) == BumpScore(ScoresOf(ratings, keys), ratings[k].score)
  {
    OneMore(ratings, keys, k, Scored(1));
    OneMore(ratings, keys, k, Scored(2));
    OneMore(ratings, keys, k, Scored(3));
    OneMore(ratings, keys, k, Scored(4));
    OneMore(ratings, keys, k, Scored(5));
  }

  lemma TagsGrow(ratings: Ratings, keys: set<string>, k: string)
    requires keys <= ratings.Keys && k in ratings && k !in keys
    ensures TagsOf(ratings, keys + {k}) == AddTags(TagsOf(ratings, keys), ratings[k].tags)
  {
    OneMore(ratings, keys, k, Tagged(OnTime));
    OneMore(ratings, keys, k, Tagged(Polite));
    OneMore(ratings, keys, k, Tagged(CarefulHandling));
    OneMore(ratings, keys, k, Tagged(DelayedDelivery));
    OneMore(ratings, keys, k, Tagged(RudeBehavior));
    OneMore(ratings, keys, k, Tagged(DamagedOrder));
    OneMore(ratings, keys, k, Tagged(OtherIssue));
  }

  lemma LatestGrows(last: int, ratings: Ratings, keys: set<string>, k: string)
    requires keys <= ratings.Keys && k in ratings && LatestOf(last, ratings, keys)
    requires forall j | j in keys :: ratings[j].createdAt != ZERO_TIME
    ensures LatestOf(if last == ZERO_TIME || ratings[k].createdAt > last then ratings[k].createdAt else last,
            ratings, keys + {k})
  {
    var at := ratings[k].createdAt;
    var last' := if last == ZERO_TIME || at > last then at else last;
    if keys != {} && last' == last {
      var j :| j in keys && ratings[j].createdAt == last;
      assert j in keys + {k};
    } else {
      assert k in keys + {k};
    }
  }

  lemma EmptySummary(ratings: Ratings)
    ensures Describes(NOTHING, ratings, {})
  {
    assert forall f: Rating -> bool {:trigger Matching(ratings, {}, f)} :: Matching(ratings, {}, f) == {};
  }

  /** One round of the walk. */
  function AddRating(s: Summary, r: Rating): Summary {
    Summary(
      s.count + 1, s.total + r.score, if r.score < 3 then s.low + 1 else s.low, BumpScore(s.scores, r.score),
        AddTags(s.tags, r.tags),
      if s.last == ZERO_TIME || r.createdAt > s.last then r.createdAt else s.last)
  }

  method CountRating(s: Summary, r: Rating) returns (s': Summary)
    requires Distinct(r.tags)
    ensures s' == AddRating(s, r)
  {
    var tags := CountTags(s.tags, r.tags);
    s' := Summary(
      s.count + 1, s.total + r.score, if r.score < 3 then s.low + 1 else s.low, BumpScore(s.scores, r.score), tags,
      if s.last == ZERO_TIME || r.createdAt > s.last then r.createdAt else s.last);
  }

  /** A walk visits ratings without repeating one. */
  ghost predicate Walk(ratings: Ratings, order: seq<string>) {
    && (forall i | 0 <= i < |order| :: order[i] in ratings && Kept(ratings[order[i]]))
    && (forall i, j | 0 <= i < j < |order| :: order[i] != order[j])
  }

  ghost function Visited(order: seq<string>): set<string> {
    set k | k in order
  }

  function SummaryOf(ratings: Ratings, order: seq<string>): Summary
    requires forall k | k in order :: k in ratings
  {
    if order == [] then NOTHING else AddRating(SummaryOf(ratings, order[..|order| - 1]), ratings[order[|order| - 1]])
  }

  /** The last rating of a walk is new. */
  lemma LastVisited(ratings: Ratings, order: seq<string>) returns (before: seq<string>, k: string)
    requires order != [] && Walk(ratings, order)
    ensures before == order[..|order| - 1] && k == order[|order| - 1] && Walk(ratings, before)
    ensures k in ratings && Visited(order) == Visited(before) + {k} && k !in Visited(before)
    ensures Visited(before) <= ratings.Keys
    ensures 1 <= ratings[k].score <= 5
    ensures SummaryOf(ratings, order) == AddRating(SummaryOf(ratings, before), ratings[k])
  {
    before, k := order[..|order| - 1], order[|order| - 1];
    assert order == before + [k];
    assert Kept(ratings[k]);
  }

  lemma {:induction false} WalkCounts(ratings: Ratings, order: seq<string>)
    requires Walk(ratings, order)
    ensures SummaryOf(ratings, order).count == |Visited(order)|
    ensures SummaryOf(ratings, order).total == Total(ratings, Visited(order))
    ensures SummaryOf(ratings, order).low == N(ratings, Visited(order), Low())
  {
    if order != [] {
      var before, k := LastVisited(ratings, order);
      WalkCounts(ratings, before);
      TotalGrows(ratings, Visited(before), k);
      OneMore(ratings, Visited(before), k, Low());
    }
  }

  lemma {:induction false} WalkScores(ratings: Ratings, order: seq<string>)
    requires Walk(ratings, order)
    ensures SummaryOf(ratings, order).scores == ScoresOf(ratings, Visited(order))
  {
    if order == [] {
      EmptySummary(ratings);
    } else {
      var before, k := LastVisited(ratings, order);
      WalkScores(ratings, before);
      ScoresGrow(ratings, Visited(before), k);
    }
  }

  lemma {:induction false} WalkTags(ratings: Ratings, order: seq<string>)
    requires Walk(ratings, order)
    ensures SummaryOf(ratings, order).tags == TagsOf(ratings, Visited(order))
  {
    if order == [] {
      EmptySummary(ratings);
    } else {
      var before, k := LastVisited(ratings, order);
      WalkTags(ratings, before);
      TagsGrow(ratings, Visited(before), k);
    }
  }

  lemma {:induction false} WalkLatest(ratings: Ratings, order: seq<string>)
    requires Walk(ratings, order)
    ensures LatestOf(SummaryOf(ratings, order).last, ratings, Visited(order))
  {
    if order != [] {
      var before, k := LastVisited(ratings, order);
      WalkLatest(ratings, before);
      LatestGrows(SummaryOf(ratings, before).last, ratings, Visited(before), k);
    }
  }

  /** A walk over all the ratings describes them, whatever its order. */
  lemma WalkDescribes(ratings: Ratings, order: seq<string>)
    requires Walk(ratings, order) && Visited(order) == ratings.Keys
    ensures Describes(SummaryOf(ratings, order), ratings, ratings.Keys)
  {
    WalkCounts(ratings, order);
    WalkScores(ratings, order);
    WalkTags(ratings, order);
    WalkLatest(ratings, order);
  }

  ghost predicate Underway(ratings: Ratings, todo: set<string>, order: seq<string>) {
    Walk(ratings, order) && forall k | k in ratings :: k in todo <==> k !in order
  }

  lemma WalkOn(ratings: Ratings, todo: set<string>, order: seq<string>, k: string)
    requires RatingsOk(ratings) && Underway(ratings, todo, order) && k in ratings && k in todo
    ensures Underway(ratings, todo - {k}, order + [k])
    ensures SummaryOf(ratings, order + [k]) == AddRating(SummaryOf(ratings, order), ratings[k])
  {
    assert (order + [k])[..|order|] == order;
  }

  lemma WalkEnds(ratings: Ratings, order: seq<string>)
    requires Underway(ratings, {}, order)
    ensures Describes(SummaryOf(ratings, order), ratings, ratings.Keys)
  {
    assert Visited(order) == ratings.Keys;
    WalkDescribes(ratings, order);
  }

  /** Walks the ratings in an arbitrary order. */
  method Summarize(ratings: Ratings) returns (s: Summary)
    requires RatingsOk(ratings)
    ensures Describes(s, ratings, ratings.Keys)
  {
    s := NOTHING;
    var todo := ratings.Keys;
    ghost var order: seq<string> := [];
    while todo != {}
      invariant todo <= ratings.Keys && Underway(ratings, todo, order) && s == SummaryOf(ratings, order)
      decreases |todo|
    {
      var k :| k in todo;
      KeptFacts(ratings, k);
      s := CountRating(s, ratings[k]);
      WalkOn(ratings, todo, order, k);
      todo, order := todo - {k}, order + [k];
    }
    WalkEnds(ratings, order);
  }

  // --------------------------------------------------------------------------- laws

  /** The description leaves nothing open, so the walking order does not matter. */
  lemma OrderDoesNotMatter(a: Summary, b: Summary, ratings: Ratings, keys: set<string>)
    requires keys <= ratings.Keys && Describes(a, ratings, keys) && Describes(b, ratings, keys)
    ensures a == b
  {
    if keys != {} {
      var i :| i in keys && ratings[i].createdAt == a.last;
      var j :| j in keys && ratings[j].createdAt == b.last;
    }
  }

  ghost function NegativeTags(ratings: Ratings, keys: set<string>): nat
    requires keys <= ratings.Keys
  {
    N(ratings, keys, Tagged(DelayedDelivery)) + N(ratings, keys, Tagged(RudeBehavior))
    + N(ratings, keys, Tagged(DamagedOrder)) + N(ratings, keys, Tagged(OtherIssue))
  }

  lemma {:induction false} ScoresPartition(ratings: Ratings, keys: set<string>)
    requires RatingsOk(ratings) && keys <= ratings.Keys
    ensures N(ratings, keys, Scored(1)) + N(ratings, keys, Scored(2)) + N(ratings, keys, Scored(3))
            + N(ratings, keys, Scored(4)) + N(ratings, keys, Scored(5)) == |keys|
    ensures N(ratings, keys, Low()) == N(ratings, keys, Scored(1)) + N(ratings, keys, Scored(2))
    ensures |keys| <= Total(ratings, keys) <= 5 * |keys|
    decreases |keys|
  {
    if keys == {} {
      EmptySummary(ratings);
    } else {
      var k :| k in keys;
      var rest := keys - {k};
      assert keys == rest + {k};
      ScoresPartition(ratings, rest);
      TotalGrows(ratings, rest, k);
      OneMore(ratings, rest, k, Scored(1));
      OneMore(ratings, rest, k, Scored(2));
      OneMore(ratings, rest, k, Scored(3));
      OneMore(ratings, rest, k, Scored(4));
      OneMore(ratings, rest, k, Scored(5));
      OneMore(ratings, rest, k, Low());
      KeptFacts(ratings, k);
    }
  }

  /** Every low rating names at least one reason. */
  lemma {:induction false} LowRatingsHaveReasons(ratings: Ratings, keys: set<string>)
    requires RatingsOk(ratings) && keys <= ratings.Keys
    ensures N(ratings, keys, Low()) <= NegativeTags(ratings, keys)
    decreases |keys|
  {
    if keys == {} {
      EmptySummary(ratings);
    } else {
      var k :| k in keys;
      var rest := keys - {k};
      assert keys == rest + {k};
      LowRatingsHaveReasons(ratings, rest);
      OneMore(ratings, rest, k, Low());
      OneMore(ratings, rest, k, Tagged(DelayedDelivery));
      OneMore(ratings, rest, k, Tagged(RudeBehavior));
      OneMore(ratings, rest, k, Tagged(DamagedOrder));
      OneMore(ratings, rest, k, Tagged(OtherIssue));
      assert Kept(ratings[k]);
      ReasonGiven(ratings[k]);
    }
  }

  lemma ReasonGiven(r: Rating)
    requires AcceptableRating(r)
    ensures r.score < 3 ==>
              DelayedDelivery in r.tags || RudeBehavior in r.tags || DamagedOrder in r.tags || OtherIssue in r.tags
  {
    if r.score < 3 {
      var i :| 0 <= i < |r.tags| && Negative(r.tags[i]);
      assert r.tags[i] in r.tags;
    }
  }

  /** No rating of five carries a negative tag. */
  lemma FivesAreClean(ratings: Ratings, keys: set<string>, t: Tag)
    requires RatingsOk(ratings) && keys <= ratings.Keys && Negative(t)
    ensures N(ratings, keys, Tagged(t)) <= |keys| - N(ratings, keys, Scored(5))
  {
    var tagged, fives := Matching(ratings, keys, Tagged(t)), Matching(ratings, keys, Scored(5));
    forall k | k in tagged ensures k !in fives {
      assert Kept(ratings[k]);
    }
    assert fives + (keys - fives) == keys;
    assert |fives| + |keys - fives| == |keys|;
    SubsetSize(tagged, keys - fives);
  }

  ghost predicate SummaryConsistent(s: Summary) {
    && s.scores.one + s.scores.two + s.scores.three + s.scores.four + s.scores.five == s.count
    && s.low == s.scores.one + s.scores.two
    && s.low <= s.tags.delayed + s.tags.rude + s.tags.damaged + s.tags.other
    && s.tags.delayed <= s.count - s.scores.five && s.tags.rude <= s.count - s.scores.five
    && s.tags.damaged <= s.count - s.scores.five && s.tags.other <= s.count - s.scores.five
    && s.count <= s.total <= 5 * s.count
  }

  /** The counters of any summary of accepted ratings fit together. */
  lemma SummaryLaws(s: Summary, ratings: Ratings)
    requires RatingsOk(ratings) && Describes(s, ratings, ratings.Keys)
    ensures SummaryConsistent(s)
  {
    var keys := ratings.Keys;
    ScoresPartition(ratings, keys);
    LowRatingsHaveReasons(ratings, keys);
    FivesAreClean(ratings, keys, DelayedDelivery);
    FivesAreClean(ratings, keys, RudeBehavior);
    FivesAreClean(ratings, keys, DamagedOrder);
    FivesAreClean(ratings, keys, OtherIssue);
  }

  /** The exact average; a courier without ratings has 0. */
  function Average(s: Summary): real {
    if s.count == 0 then 0.0 else s.total as real / s.count as real
  }

  lemma AverageInRange(s: Summary)
    requires SummaryConsistent(s) && s.count > 0
    ensures 1.0 <= Average(s) <= 5.0 && Average(s) * s.count as real == s.total as real
  {
    Ratio(s.total as real, s.count as real);
  }

  lemma Ratio(t: real, c: real)
    requires 0.0 < c <= t <= 5.0 * c
    ensures 1.0 <= t / c <= 5.0
  {
    var q := t / c;
    assert q * c == t;
    Scale(1.0, q, c);
    Scale(q, 5.0, c);
  }

  lemma Scale(a: real, b: real, c: real)
    requires c > 0.0 && a * c <= b * c
    ensures a <= b
  {
    assert a * c - b * c == (a - b) * c;
    assert (a - b) * c > 0.0 || a - b <= 0.0;
  }
}
