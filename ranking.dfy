/**
  The top-talkers ranking of `emit_top_talkers`:
  `sorted(traffic_counter.items(), key=count, reverse=True)[:3]`. Python's
  sort is stable, also with `reverse=True`, so sources with equal counts
  keep the counter's insertion order.
 */
module Ranking {
  import opened Wrappers
  import opened Stats

  /** An `(ip, count)` item. */
  type Talker = (IpKey, nat)

  /** The size of the published snapshot. */
  const TopN: nat := 3

  /** `traffic_counter.items()`, in insertion order. */
  function Items(t: TrafficCounter): (r: seq<Talker>)
    ensures |r| == |t.order|
    ensures forall i :: 0 <= i < |r| ==> r[i].0 == t.order[i]
  {
    seq(|t.order|, i requires 0 <= i < |t.order| => (t.order[i], Get(t.counts, t.order[i])))
  }

  /** The items of a well-formed counter are exactly its entries, each key once. */
  lemma ItemsOfCounter(t: TrafficCounter, k: IpKey)
    requires t.Valid()
    ensures k in t.counts ==> (k, t.counts[k]) in Items(t)
    ensures forall i :: 0 <= i < |Items(t)| ==> Items(t)[i].0 in t.counts && Items(t)[i].1 == t.counts[Items(t)[i].0]
    ensures forall i, j :: 0 <= i < j < |Items(t)| ==> Items(t)[i].0 != Items(t)[j].0
  {
    if k in t.counts {
      var i :| 0 <= i < |t.order| && t.order[i] == k;
      assert Items(t)[i] == (k, t.counts[k]);
    }
  }

  predicate NonIncreasing(s: seq<Talker>) {
    forall i, j :: 0 <= i < j < |s| ==> s[i].1 >= s[j].1
  }

  /** The items of `s` whose count is `v`, in their order in `s`. */
  function WithCount(s: seq<Talker>, v: nat): seq<Talker> {
    if s == [] then [] else (if s[0].1 == v then [s[0]] else []) + WithCount(s[1..], v)
  }

  /** Insert `x` before the first item whose count is not larger, so it precedes its ties. */
  function InsertDesc(x: Talker, s: seq<Talker>): (r: seq<Talker>)
    ensures |r| == |s| + 1
  {
    if s == [] || x.1 >= s[0].1 then [x] + s else [s[0]] + InsertDesc(x, s[1..])
  }

  /** A stable sort by count, largest first. */
  function SortDesc(s: seq<Talker>): (r: seq<Talker>)
    ensures |r| == |s|
  {
    if s == [] then [] else InsertDesc(s[0], SortDesc(s[1..]))
  }

  lemma {:induction false} InsertDescPermutes(x: Talker, s: seq<Talker>)
    ensures multiset(InsertDesc(x, s)) == multiset([x] + s)
  {
    if s != [] && x.1 < s[0].1 {
      InsertDescPermutes(x, s[1..]);
      assert s == [s[0]] + s[1..];
    }
  }

  lemma {:induction false} SortDescPermutes(s: seq<Talker>)
    ensures multiset(SortDesc(s)) == multiset(s)
  {
    if s != [] {
      SortDescPermutes(s[1..]);
      InsertDescPermutes(s[0], SortDesc(s[1..]));
      assert s == [s[0]] + s[1..];
    }
  }

  lemma ConsSorted(h: Talker, r: seq<Talker>)
    requires NonIncreasing(r)
    requires forall y :: y in r ==> y.1 <= h.1
    ensures NonIncreasing([h] + r)
  {
    var c := [h] + r;
    forall i, j | 0 <= i < j < |c| ensures c[i].1 >= c[j].1 {
      assert c[j] == r[j - 1];
      if i > 0 {
        assert c[i] == r[i - 1];
      }
    }
  }

  /** Inserting into a sorted tail never exceeds its sorted head. */
  lemma InsertDescBelowHead(x: Talker, s: seq<Talker>)
    requires NonIncreasing(s) && s != [] && x.1 < s[0].1
    ensures forall y :: y in InsertDesc(x, s[1..]) ==> y.1 <= s[0].1
  {
    InsertDescPermutes(x, s[1..]);
    forall y | y in InsertDesc(x, s[1..]) ensures y.1 <= s[0].1 {
      assert y in multiset([x] + s[1..]);
      if y != x {
        assert y in s[1..];
      }
    }
  }

  lemma {:induction false} InsertDescSorted(x: Talker, s: seq<Talker>)
    requires NonIncreasing(s)
    ensures NonIncreasing(InsertDesc(x, s))
  {
    if s == [] || x.1 >= s[0].1 {
      ConsSorted(x, s);
    } else {
      InsertDescSorted(x, s[1..]);
      InsertDescBelowHead(x, s);
      ConsSorted(s[0], InsertDesc(x, s[1..]));
    }
  }

  lemma {:induction false} SortDescSorted(s: seq<Talker>)
    ensures NonIncreasing(SortDesc(s))
  {
    if s != [] {
      SortDescSorted(s[1..]);
      InsertDescSorted(s[0], SortDesc(s[1..]));
    }
  }

  lemma WithCountCons(x: Talker, s: seq<Talker>, v: nat)
    ensures WithCount([x] + s, v) == (if x.1 == v then [x] else []) + WithCount(s, v)
  {
    assert ([x] + s)[1..] == s;
  }

  /** Inserting keeps the relative order of every group of equal counts. */
  lemma {:induction false} InsertDescStable(x: Talker, s: seq<Talker>, v: nat)
    ensures WithCount(InsertDesc(x, s), v) == WithCount([x] + s, v)
  {
    if s != [] && x.1 < s[0].1 {
      var h, t := s[0], s[1..];
      var hx: seq<Talker> := if x.1 == v then [x] else [];
      var hh: seq<Talker> := if h.1 == v then [h] else [];
      assert s == [h] + t;
      assert hh + hx == hx + hh by {
        assert hx == [] || hh == [];
      }
      calc {
        WithCount(InsertDesc(x, s), v);
        { assert InsertDesc(x, s) == [h] + InsertDesc(x, t); WithCountCons(h, InsertDesc(x, t), v); }
        hh + WithCount(InsertDesc(x, t), v);
        { InsertDescStable(x, t, v); WithCountCons(x, t, v); }
        hh + (hx + WithCount(t, v));
        hx + (hh + WithCount(t, v));
        { WithCountCons(h, t, v); }
        hx + WithCount(s, v);
        { WithCountCons(x, s, v); }
        WithCount([x] + s, v);
      }
    }
  }

  /** The sort is stable: items with equal counts come out in the order they went in. */
  lemma {:induction false} SortDescStable(s: seq<Talker>, v: nat)
    ensures WithCount(SortDesc(s), v) == WithCount(s, v)
  {
    if s != [] {
      SortDescStable(s[1..], v);
      InsertDescStable(s[0], SortDesc(s[1..]), v);
      WithCountCons(s[0], SortDesc(s[1..]), v);
      assert s == [s[0]] + s[1..];
      WithCountCons(s[0], s[1..], v);
    }
  }

  /** `sorted(items, key=count, reverse=True)[:3]`. */
  function TopTalkers(items: seq<Talker>): (r: seq<Talker>)
    ensures |r| == if |items| < TopN then |items| else TopN
    ensures NonIncreasing(r)
    ensures multiset(r) <= multiset(items)
  {
    var sorted := SortDesc(items);
    SortDescPermutes(items);
    SortDescSorted(items);
    var n := if |sorted| < TopN then |sorted| else TopN;
    assert sorted == sorted[..n] + sorted[n..];
    sorted[..n]
  }

  /** Nothing left out of the snapshot has a larger count than anything in it. */
  lemma TopTalkersAreTop(items: seq<Talker>, x: Talker)
    requires x in items && x !in TopTalkers(items)
    ensures forall i :: 0 <= i < |TopTalkers(items)| ==> TopTalkers(items)[i].1 >= x.1
  {
    var sorted := SortDesc(items);
    SortDescPermutes(items);
    SortDescSorted(items);
    assert x in multiset(sorted);
    var k :| 0 <= k < |sorted| && sorted[k] == x;
    var r := TopTalkers(items);
    assert r == sorted[..|r|];
    assert k >= |r|;
  }

  lemma {:induction false} WithCountPrefix(s: seq<Talker>, n: nat, v: nat)
    requires n <= |s|
    ensures |WithCount(s[..n], v)| <= |WithCount(s, v)|
    ensures WithCount(s[..n], v) == WithCount(s, v)[..|WithCount(s[..n], v)|]
  {
    if n > 0 {
      WithCountPrefix(s[1..], n - 1, v);
      assert s[..n] == [s[0]] + s[1..][..n - 1];
      WithCountCons(s[0], s[1..][..n - 1], v);
      assert s == [s[0]] + s[1..];
      WithCountCons(s[0], s[1..], v);
    }
  }

  /** Ties in the snapshot appear in the counter's order: they are the first ones of their count. */
  lemma TopTalkersKeepTieOrder(items: seq<Talker>, v: nat)
    ensures |WithCount(TopTalkers(items), v)| <= |WithCount(items, v)|
    ensures WithCount(TopTalkers(items), v) == WithCount(items, v)[..|WithCount(TopTalkers(items), v)|]
  {
    var sorted := SortDesc(items);
    var r := TopTalkers(items);
    assert r == sorted[..|r|];
    WithCountPrefix(sorted, |r|, v);
    SortDescStable(items, v);
  }

  /** Three sources and two successive replies naming them, with 10, 50, 5 and then 5, 0, 20 packets. */
  const SourceA: IpKey := "10.2.0.1"
  const SourceB: IpKey := "10.3.0.1"
  const SourceC: IpKey := "10.4.0.1"
  const FirstPoll: seq<FlowStat> := [FlowStat(Some(SourceA), 0, 10), FlowStat(Some(SourceB), 0, 50), FlowStat(Some(SourceC), 0, 5)]
  const SecondPoll: seq<FlowStat> := [FlowStat(Some(SourceA), 0, 5), FlowStat(Some(SourceB), 0, 0), FlowStat(Some(SourceC), 0, 20)]

  lemma SourcesDistinct()
    ensures SourceA != SourceB && SourceB != SourceC && SourceA != SourceC
  {
    assert SourceA[3] != SourceB[3] && SourceB[3] != SourceC[3] && SourceA[3] != SourceC[3];
  }

  lemma FirstPollCounts()
    ensures Accumulate(EmptyCounter, FirstPoll)
            == TrafficCounter(map[SourceA := 10, SourceB := 50, SourceC := 5], [SourceA, SourceB, SourceC])
  {
    SourcesDistinct();
    var p := FirstPoll;
    assert p[..2][..1][..0] == [] && p[..2][..1] == [p[0]] && p[..3][..2] == p[..2];
    assert Accumulate(EmptyCounter, p[..1]) == TrafficCounter(map[SourceA := 10], [SourceA]);
    assert Accumulate(EmptyCounter, p[..2]) == TrafficCounter(map[SourceA := 10, SourceB := 50], [SourceA, SourceB]);
  }

  lemma SecondPollCounts()
    ensures Accumulate(Accumulate(EmptyCounter, FirstPoll), SecondPoll)
            == TrafficCounter(map[SourceA := 15, SourceB := 50, SourceC := 25], [SourceA, SourceB, SourceC])
  {
    SourcesDistinct();
    FirstPollCounts();
    var t1 := Accumulate(EmptyCounter, FirstPoll);
    var p := SecondPoll;
    assert p[..2][..1][..0] == [] && p[..2][..1] == [p[0]] && p[..3][..2] == p[..2];
    assert Accumulate(t1, p[..1]) == TrafficCounter(map[SourceA := 15, SourceB := 50, SourceC := 5], [SourceA, SourceB, SourceC]);
    assert Accumulate(t1, p[..2]) == TrafficCounter(map[SourceA := 15, SourceB := 50, SourceC := 5], [SourceA, SourceB, SourceC]);
  }

  /** The snapshot after both polls lists the sources in first-seen order. */
  lemma SecondPollItems()
    ensures Items(Accumulate(Accumulate(EmptyCounter, FirstPoll), SecondPoll))
            == [(SourceA, 15), (SourceB, 50), (SourceC, 25)]
  {
    SecondPollCounts();
  }

  /** Sorting that snapshot moves the larger totals ahead of the first-seen source. */
  lemma SortSecondPoll()
    ensures SortDesc([(SourceA, 15), (SourceB, 50), (SourceC, 25)])
            == [(SourceB, 50), (SourceC, 25), (SourceA, 15)]
  {
    var items := [(SourceA, 15), (SourceB, 50), (SourceC, 25)];
    var none: seq<Talker> := [];
    assert items[1..] == [(SourceB, 50), (SourceC, 25)] && items[1..][1..] == [(SourceC, 25)];
    assert items[1..][1..][1..] == none;
    assert SortDesc(items[1..][1..]) == [(SourceC, 25)];
    assert SortDesc(items[1..]) == [(SourceB, 50), (SourceC, 25)];
    var ins := InsertDesc((SourceA, 15), [(SourceC, 25)]);
    assert [(SourceC, 25)][1..] == none;
    assert InsertDesc((SourceA, 15), none) == [(SourceA, 15)];
    assert ins == [(SourceC, 25), (SourceA, 15)];
    assert SortDesc(items) == [(SourceB, 50)] + ins;
  }

  /** After both polls the snapshot ranks the sources by their running totals. */
  lemma TwoPollRanking()
    ensures TopTalkers(Items(Accumulate(Accumulate(EmptyCounter, FirstPoll), SecondPoll)))
            == [(SourceB, 50), (SourceC, 25), (SourceA, 15)]
  {
    SecondPollItems();
    SortSecondPoll();
    var sorted := [(SourceB, 50), (SourceC, 25), (SourceA, 15)];
    assert sorted[..3] == sorted;
  }
}
