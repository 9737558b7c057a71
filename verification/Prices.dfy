/** The dated prices of one model: the validation that accepts them, and the price that answers a request. */
module Prices {
  import opened Options

  const CONTEXT_LIMIT := 2_147_483_647

  /** One dated price. Instants are milliseconds; `terms` is what the price charges. */
  datatype Price<T> = Price(from: int, until: Option<int>, above: nat, terms: T)

  predicate Before(t: int, until: Option<int>) { until.None? || t < until.value }

  predicate Reversed<T>(p: Price<T>) { !Before(p.from, p.until) }

  predicate Overlap<T>(p: Price<T>, other: Price<T>) { Before(p.from, other.until) && Before(other.from, p.until) }

  predicate Active<T>(p: Price<T>, at: int) { p.from <= at && Before(at, p.until) }

  // ---------------------------------------------------------------- validation

  /** What validation complains of, by the price's place in the list. */
  datatype Issue = ReversedDates(i: nat) | OverlappingDates(i: nat)

  /** The price shares its tier and some instant with an earlier one. */
  predicate Clashes<T>(prices: seq<Price<T>>, i: nat)
    requires i < |prices|
  {
    exists j :: 0 <= j < i && prices[j].above == prices[i].above && Overlap(prices[i], prices[j])
  }

  function IssuesAt<T>(prices: seq<Price<T>>, i: nat): seq<Issue>
    requires i < |prices|
  {
    (if Reversed(prices[i]) then [ReversedDates(i)] else []) + (if Clashes(prices, i) then [OverlappingDates(i)] else [])
  }

  function Issues<T>(prices: seq<Price<T>>, n: nat): seq<Issue>
    requires n <= |prices|
  {
    if n == 0 then [] else Issues(prices, n - 1) + IssuesAt(prices, n - 1)
  }

  /** The earlier prices of a tier, in order. */
  function Tier<T>(prices: seq<Price<T>>, above: nat): (tier: seq<Price<T>>)
  {
    if prices == [] then []
    else
      var last := prices[|prices| - 1];
      Tier(prices[..|prices| - 1], above) + if last.above == above then [last] else []
  }

  lemma {:induction false} TierMembers<T>(prices: seq<Price<T>>, above: nat, p: Price<T>)
    ensures p in Tier(prices, above) <==> p in prices && p.above == above
  {
    if prices != [] {
      var init, last := prices[..|prices| - 1], prices[|prices| - 1];
      TierMembers(init, above, p);
      assert prices == init + [last];
      assert p in prices <==> p in init || p == last;
    }
  }

  predicate ClashesWith<T>(p: Price<T>, previous: seq<Price<T>>) {
    exists k :: 0 <= k < |previous| && Overlap(p, previous[k])
  }

  /** The earlier prices, kept by tier. */
  ghost predicate KeptByTier<T>(tiers: map<nat, seq<Price<T>>>, earlier: seq<Price<T>>) {
    forall above: nat :: (if above in tiers then tiers[above] else []) == Tier(earlier, above)
  }

  lemma KeepsNothing<T>(prices: seq<Price<T>>)
    ensures KeptByTier(map[], prices[..0]) && Issues(prices, 0) == []
  {
  }

  lemma KeptOf<T>(tiers: map<nat, seq<Price<T>>>, earlier: seq<Price<T>>, above: nat)
    requires KeptByTier(tiers, earlier)
    ensures (if above in tiers then tiers[above] else []) == Tier(earlier, above)
  {
  }

  lemma KeepNext<T>(tiers: map<nat, seq<Price<T>>>, earlier: seq<Price<T>>, p: Price<T>)
    requires KeptByTier(tiers, earlier)
    ensures KeptByTier(tiers[p.above := Tier(earlier, p.above) + [p]], earlier + [p])
  {
    assert (earlier + [p])[..|earlier|] == earlier;
  }

  lemma ClashesIn<T>(prices: seq<Price<T>>, n: nat)
    requires n < |prices|
    ensures Clashes(prices, n) <==> ClashesWith(prices[n], Tier(prices[..n], prices[n].above))
  {
    var previous := Tier(prices[..n], prices[n].above);
    if Clashes(prices, n) {
      var j :| 0 <= j < n && prices[j].above == prices[n].above && Overlap(prices[n], prices[j]);
      TierMembers(prices[..n], prices[n].above, prices[j]);
      assert prices[..n][j] == prices[j] && prices[j] in previous;
      var k :| 0 <= k < |previous| && previous[k] == prices[j];
      assert Overlap(prices[n], previous[k]);
    }
    if j :| 0 <= j < |previous| && Overlap(prices[n], previous[j]) {
      TierMembers(prices[..n], prices[n].above, previous[j]);
      var k :| 0 <= k < n && prices[..n][k] == previous[j];
      assert prices[k] == previous[j];
    }
  }

  lemma IssuesGrow<T>(before: seq<Issue>, dated: seq<Issue>, after: seq<Issue>, prices: seq<Price<T>>, n: nat)
    requires n < |prices| && before == Issues(prices, n)
    requires dated == if Reversed(prices[n]) then before + [ReversedDates(n)] else before
    requires after == if Clashes(prices, n) then dated + [OverlappingDates(n)] else dated
    ensures after == Issues(prices, n + 1)
  {
    hide Reversed, Clashes;
  }

  /** The loop over a model's prices: earlier prices are kept by tier, and each price is compared with its tier's. */
  method Validate<T>(prices: seq<Price<T>>) returns (issues: seq<Issue>)
    ensures issues == Issues(prices, |prices|)
  {
    hide KeptByTier, Clashes, Tier, Reversed, ClashesWith, Issues;
    issues := [];
    var tiers: map<nat, seq<Price<T>>> := map[];
    KeepsNothing(prices);
    for n := 0 to |prices|
      invariant issues == Issues(prices, n)
      invariant KeptByTier(tiers, prices[..n])
    {
      var price := prices[n];
      var previous := if price.above in tiers then tiers[price.above] else [];
      KeptOf(tiers, prices[..n], price.above);
      KeepNext(tiers, prices[..n], price);
      ClashesIn(prices, n);
      ghost var before := issues;
      if Reversed(price) { issues := issues + [ReversedDates(n)]; }
      ghost var dated := issues;
      if ClashesWith(price, previous) { issues := issues + [OverlappingDates(n)]; }
      IssuesGrow(before, dated, issues, prices, n);
      tiers := tiers[price.above := previous + [price]];
      assert prices[..n + 1] == prices[..n] + [price];
    }
  }

  // ---------------------------------------------------------------- what acceptance means

  /** The price is in force at an instant: from its first on, and before its last, which is excluded. */
  predicate InForce<T>(p: Price<T>, at: int) {
    p.from <= at && match p.until case None => true case Some(last) => at < last
  }

  /** At every instant at most one price of each tier is in force. */
  ghost predicate OneInForce<T>(prices: seq<Price<T>>) {
    forall i, j, at :: 0 <= i < j < |prices| && prices[i].above == prices[j].above ==> !(InForce(prices[i], at) && InForce(prices[j], at))
  }

  ghost predicate EverIsInForce<T>(p: Price<T>) { exists at :: InForce(p, at) }

  /** Every price is in force at some instant. */
  ghost predicate AllEverInForce<T>(prices: seq<Price<T>>) {
    forall i :: 0 <= i < |prices| ==> EverIsInForce(prices[i])
  }

  ghost predicate NoneReversed<T>(prices: seq<Price<T>>) { forall i :: 0 <= i < |prices| ==> !Reversed(prices[i]) }

  lemma {:induction false} NoIssues<T>(prices: seq<Price<T>>, n: nat)
    requires n <= |prices|
    ensures Issues(prices, n) == [] <==> forall i :: 0 <= i < n ==> !Reversed(prices[i]) && !Clashes(prices, i)
  {
    if n > 0 { NoIssues(prices, n - 1); }
  }

  /** Two prices, neither reversed, overlap exactly when some instant has both in force. */
  lemma OverlapShares<T>(p: Price<T>, q: Price<T>)
    requires !Reversed(p) && !Reversed(q)
    ensures Overlap(p, q) <==> exists at :: InForce(p, at) && InForce(q, at)
  {
    if Overlap(p, q) {
      var at := if p.from < q.from then q.from else p.from;
      assert InForce(p, at) && InForce(q, at);
    }
  }

  lemma ReversedNever<T>(p: Price<T>)
    ensures Reversed(p) <==> forall at :: !InForce(p, at)
  {
    if !Reversed(p) { assert InForce(p, p.from); }
  }

  lemma EverInForce<T>(prices: seq<Price<T>>)
    ensures NoneReversed(prices) <==> AllEverInForce(prices)
  {
    forall i | 0 <= i < |prices| ensures Reversed(prices[i]) <==> !EverIsInForce(prices[i]) { ReversedNever(prices[i]); }
    hide Reversed, EverIsInForce;
  }

  /** Validation accepts a model exactly when every price is in force at some time and no two of one tier ever are together. */
  lemma AcceptedMeansOneInForce<T>(prices: seq<Price<T>>)
    ensures Issues(prices, |prices|) == [] <==> AllEverInForce(prices) && OneInForce(prices)
    ensures Issues(prices, |prices|) == [] ==> NoneReversed(prices)
  {
    NoIssues(prices, |prices|);
    EverInForce(prices);
    if NoneReversed(prices) {
      forall i, j | 0 <= j < i < |prices| ensures Overlap(prices[i], prices[j]) <==> exists at :: InForce(prices[i], at) && InForce(prices[j], at) {
        OverlapShares(prices[i], prices[j]);
      }
      hide Overlap, InForce, Reversed, AllEverInForce;
      if OneInForce(prices) {
        forall i | 0 <= i < |prices| ensures !Clashes(prices, i) {}
      }
      if forall i :: 0 <= i < |prices| ==> !Clashes(prices, i) {
        forall i, j, at | 0 <= i < j < |prices| && prices[i].above == prices[j].above ensures !(InForce(prices[i], at) && InForce(prices[j], at)) {
          assert !Clashes(prices, j);
        }
      }
    }
  }

  /** The dates of price `i` end no later than they begin. */
  predicate EndsTooSoon<T>(prices: seq<Price<T>>, i: nat)
    requires i < |prices|
  {
    prices[i].until.Some? && prices[i].until.value <= prices[i].from
  }

  /** Prices of one tier, each beginning before the other ends. */
  predicate Meet<T>(p: Price<T>, q: Price<T>) {
    && p.above == q.above
    && (q.until.Some? ==> p.from < q.until.value) && (p.until.Some? ==> q.from < p.until.value)
  }

  ghost predicate MeetsEarlier<T>(prices: seq<Price<T>>, i: nat)
    requires i < |prices|
  {
    exists j :: 0 <= j < i && Meet(prices[i], prices[j])
  }

  lemma IssuesHere<T>(prices: seq<Price<T>>, n: nat, i: nat)
    requires n < |prices|
    ensures ReversedDates(i) in IssuesAt(prices, n) <==> i == n && EndsTooSoon(prices, n)
    ensures OverlappingDates(i) in IssuesAt(prices, n) <==> i == n && MeetsEarlier(prices, n)
  {
    ClashIsMeeting(prices, n);
    hide Clashes, MeetsEarlier;
  }

  lemma {:induction false} IssuesSoFar<T>(prices: seq<Price<T>>, n: nat, i: nat)
    requires n <= |prices|
    ensures ReversedDates(i) in Issues(prices, n) <==> i < n && EndsTooSoon(prices, i)
    ensures OverlappingDates(i) in Issues(prices, n) <==> i < n && MeetsEarlier(prices, i)
  {
    hide IssuesAt, EndsTooSoon, MeetsEarlier;
    if n > 0 {
      IssuesSoFar(prices, n - 1, i);
      IssuesHere(prices, n - 1, i);
      InEither(Issues(prices, n - 1), IssuesAt(prices, n - 1), ReversedDates(i));
      InEither(Issues(prices, n - 1), IssuesAt(prices, n - 1), OverlappingDates(i));
    }
  }

  lemma InEither(before: seq<Issue>, here: seq<Issue>, issue: Issue)
    ensures issue in before + here <==> issue in before || issue in here
  {
  }

  lemma ClashIsMeeting<T>(prices: seq<Price<T>>, i: nat)
    requires i < |prices|
    ensures Clashes(prices, i) <==> MeetsEarlier(prices, i)
  {
    forall j | 0 <= j < i ensures Meet(prices[i], prices[j]) <==> prices[j].above == prices[i].above && Overlap(prices[i], prices[j]) {}
    hide Meet, Overlap;
  }

  /** The complaints are exactly those of prices that end too soon, and of prices that meet an earlier one of their tier. */
  lemma IssuesAreExact<T>(prices: seq<Price<T>>, i: nat)
    ensures ReversedDates(i) in Issues(prices, |prices|) <==> i < |prices| && EndsTooSoon(prices, i)
    ensures OverlappingDates(i) in Issues(prices, |prices|) <==> i < |prices| && MeetsEarlier(prices, i)
  {
    IssuesSoFar(prices, |prices|, i);
  }

  // ---------------------------------------------------------------- the price of a request

  predicate Applies<T>(p: Price<T>, promptTokens: nat, at: int) {
    Active(p, at) && (p.above == 0 || promptTokens > p.above)
  }

  function Candidates<T>(prices: seq<Price<T>>, promptTokens: nat, at: int): seq<Price<T>> {
    if prices == [] then []
    else (if Applies(prices[0], promptTokens, at) then [prices[0]] else []) + Candidates(prices[1..], promptTokens, at)
  }

  /** Inserts a price before the first one of a lower tier or, equal tiers keeping their order, of its own. */
  function Insert<T>(p: Price<T>, sorted: seq<Price<T>>): seq<Price<T>> {
    if sorted == [] then [p]
    else if p.above >= sorted[0].above then [p] + sorted
    else [sorted[0]] + Insert(p, sorted[1..])
  }

  /** Highest tier first; the sort is stable. */
  function SortByTier<T>(prices: seq<Price<T>>): seq<Price<T>> {
    if prices == [] then [] else Insert(prices[0], SortByTier(prices[1..]))
  }

  datatype Quote<T> = BadRequest | NoPrice | Priced(price: Price<T>)

  function PriceForRequest<T>(prices: seq<Price<T>>, promptTokens: int, at: int): Quote<T> {
    if !(0 <= promptTokens <= CONTEXT_LIMIT) then BadRequest
    else
      var sorted := SortByTier(Candidates(prices, promptTokens, at));
      if sorted == [] then NoPrice else Priced(sorted[0])
  }

  lemma {:induction false} CandidatesMembers<T>(prices: seq<Price<T>>, promptTokens: nat, at: int)
    ensures forall p :: p in Candidates(prices, promptTokens, at) <==> p in prices && Applies(p, promptTokens, at)
  {
    if prices != [] {
      CandidatesMembers(prices[1..], promptTokens, at);
      assert prices == [prices[0]] + prices[1..];
      forall p ensures p in Candidates(prices, promptTokens, at) <==> p in prices && Applies(p, promptTokens, at) {
        assert p in prices <==> p == prices[0] || p in prices[1..];
      }
    }
  }

  lemma {:induction false} SortedMembers<T>(prices: seq<Price<T>>)
    ensures var s := SortByTier(prices);
      && multiset(s) == multiset(prices)
      && (s != [] ==> forall p :: p in s ==> p.above <= s[0].above)
  {
    if prices != [] {
      var rest := SortByTier(prices[1..]);
      SortedMembers(prices[1..]);
      Inserted(prices[0], rest);
      assert prices == [prices[0]] + prices[1..];
      forall p | p in Insert(prices[0], rest) ensures p.above <= Insert(prices[0], rest)[0].above {
        assert p in multiset(Insert(prices[0], rest));
        assert p == prices[0] || p in rest;
      }
    }
  }

  lemma {:induction false} Inserted<T>(p: Price<T>, sorted: seq<Price<T>>)
    ensures multiset(Insert(p, sorted)) == multiset{p} + multiset(sorted)
  {
    if sorted != [] && p.above < sorted[0].above {
      Inserted(p, sorted[1..]);
      assert sorted == [sorted[0]] + sorted[1..];
    }
  }

  /** The price is in force, and the prompt is longer than its threshold, if it has one. */
  predicate Covers<T>(p: Price<T>, promptTokens: nat, at: int) {
    InForce(p, at) && (p.above > 0 ==> p.above < promptTokens)
  }

  /** A price is the answer when it covers the request and no price that covers it has a higher threshold. */
  ghost predicate Answers<T(!new)>(p: Price<T>, prices: seq<Price<T>>, promptTokens: nat, at: int) {
    p in prices && Covers(p, promptTokens, at) && forall q :: q in prices && Covers(q, promptTokens, at) ==> q.above <= p.above
  }

  predicate ValidRequest(promptTokens: int) { 0 <= promptTokens <= 2_147_483_647 }

  /**
    A prompt size outside the context limit is refused. Otherwise the answer applies and has the
    highest tier of those that do, and there is none exactly when no price applies.
   */
  lemma HighestTierAnswers<T(!new)>(prices: seq<Price<T>>, promptTokens: int, at: int)
    ensures var quote := PriceForRequest(prices, promptTokens, at);
      && (quote == BadRequest <==> !ValidRequest(promptTokens))
      && (ValidRequest(promptTokens) ==> (quote == NoPrice <==> forall p :: p in prices ==> !Covers(p, promptTokens, at)))
      && (quote.Priced? ==> ValidRequest(promptTokens) && Answers(quote.price, prices, promptTokens, at))
  {
    if ValidRequest(promptTokens) {
      var candidates := Candidates(prices, promptTokens, at);
      CandidatesMembers(prices, promptTokens, at);
      SortedMembers(candidates);
      var sorted := SortByTier(candidates);
      forall p: Price<T> ensures Applies(p, promptTokens, at) <==> Covers(p, promptTokens, at) {}
      hide Candidates, SortByTier, Applies, Covers;
      forall p ensures p in sorted <==> p in candidates { assert p in multiset(sorted) <==> p in multiset(candidates); }
      if sorted == [] {
        forall p | p in prices ensures !Covers(p, promptTokens, at) { assert p !in candidates; }
      } else {
        assert sorted[0] in sorted;
      }
    }
  }

  /** In an accepted model the answer is the only one there could be. */
  lemma AnswerIsUnique<T(!new)>(prices: seq<Price<T>>, p: Price<T>, q: Price<T>, promptTokens: nat, at: int)
    requires OneInForce(prices) && Answers(p, prices, promptTokens, at) && Answers(q, prices, promptTokens, at)
    ensures p == q
  {
    var i :| 0 <= i < |prices| && prices[i] == p;
    var j :| 0 <= j < |prices| && prices[j] == q;
  }

  /** The price of a request does not depend on the order in which an accepted model lists its prices. */
  lemma AnyOrderSamePrice<T(!new)>(prices: seq<Price<T>>, others: seq<Price<T>>, promptTokens: int, at: int)
    requires Issues(prices, |prices|) == [] && multiset(prices) == multiset(others)
    ensures PriceForRequest(prices, promptTokens, at) == PriceForRequest(others, promptTokens, at)
  {
    if ValidRequest(promptTokens) {
      AcceptedMeansOneInForce(prices);
      HighestTierAnswers(prices, promptTokens, at);
      HighestTierAnswers(others, promptTokens, at);
      hide Covers, Issues, OneInForce, PriceForRequest;
      forall p ensures p in prices <==> p in others { assert p in multiset(prices) <==> p in multiset(others); }
      var a, b := PriceForRequest(prices, promptTokens, at), PriceForRequest(others, promptTokens, at);
      if a.Priced? && b.Priced? { AnswerIsUnique(prices, a.price, b.price, promptTokens, at); }
    }
  }

  lemma OverlapSplitsOrders<T(!new)>(p: Price<T>, q: Price<T>)
    requires p != q && p.above == q.above < CONTEXT_LIMIT && !Reversed(p) && !Reversed(q) && Overlap(p, q)
    ensures exists promptTokens, at :: PriceForRequest([p, q], promptTokens, at) != PriceForRequest([q, p], promptTokens, at)
  {
    OverlapShares(p, q);
    var at :| InForce(p, at) && InForce(q, at);
    var n := p.above + 1;
    hide Overlap, PriceForRequest;
    PairCandidates(p, q, n, at);
    PairCandidates(q, p, n, at);
    assert PriceForRequest([p, q], n, at) != PriceForRequest([q, p], n, at);
  }

  lemma ApartIsAccepted<T>(p: Price<T>, q: Price<T>)
    requires !Reversed(p) && !Reversed(q) && !Overlap(p, q)
    ensures Issues([p, q], 2) == []
  {
    var pair := [p, q];
    assert pair[0] == p && pair[1] == q;
    assert Overlap(q, p) == Overlap(p, q);
    NoIssues(pair, 2);
    hide Issues, Overlap, Reversed;
    assert !Clashes(pair, 0) && !Clashes(pair, 1);
  }

  /** For two different prices of one tier the order is without effect exactly when they never overlap. */
  lemma OverlapMakesOrderMatter<T(!new)>(p: Price<T>, q: Price<T>)
    requires p != q && p.above == q.above < CONTEXT_LIMIT && !Reversed(p) && !Reversed(q)
    ensures Overlap(p, q) <==> exists promptTokens, at :: PriceForRequest([p, q], promptTokens, at) != PriceForRequest([q, p], promptTokens, at)
  {
    hide Overlap, PriceForRequest, Issues, Reversed;
    if Overlap(p, q) {
      OverlapSplitsOrders(p, q);
    } else {
      ApartIsAccepted(p, q);
      forall n, at ensures PriceForRequest([p, q], n, at) == PriceForRequest([q, p], n, at) {
        AnyOrderSamePrice([p, q], [q, p], n, at);
      }
    }
  }

  lemma PairCandidates<T>(p: Price<T>, q: Price<T>, promptTokens: nat, at: int)
    requires Applies(p, promptTokens, at) && Applies(q, promptTokens, at) && p.above == q.above && promptTokens <= CONTEXT_LIMIT
    ensures PriceForRequest([p, q], promptTokens, at) == Priced(p)
  {
    assert [p, q][1..] == [q] && [q][1..] == [];
    assert Candidates([q], promptTokens, at) == [q];
    assert Candidates([p, q], promptTokens, at) == [p, q];
    assert SortByTier([q]) == [q];
  }
}
