/**
 * The insights page's data: the mood frequency chart counted over all logs,
 * and the constant cycle-length chart.
 */
module Insights {
  import opened Types
  import Calendar

  /** One bar of the mood chart. */
  datatype MoodBar = MoodBar(name: Mood, value: nat, color: string)

  /** One point of the cycle-length chart. */
  datatype CyclePoint = CyclePoint(cycle: string, length: int)

  const BarColor := "#B9A2E1"

  /** The chart shown when no mood has been logged. */
  const MockMoodData := [MoodBar(Happy, 5, "#86EFAC"), MoodBar(Sad, 2, "#93C5FD"), MoodBar(Irritable, 3, "#FCA5A5")]

  const CycleData := [
    CyclePoint("Янв", 28), CyclePoint("Фев", 29), CyclePoint("Мар", 27), CyclePoint("Апр", 28), CyclePoint("Май", 30)
  ]

  /** `cycleData`: the same five entries, whatever has been logged. */
  function CycleChart(logs: seq<DayLog>): (r: seq<CyclePoint>)
    ensures |r| == 5
  {
    CycleData
  }

  lemma CycleChartIgnoresLogs(a: seq<DayLog>, b: seq<DayLog>)
    ensures CycleChart(a) == CycleChart(b) == CycleData
  {
  }

  /** Every mood entry of the logs, in iteration order (legacy single moods included). */
  function AllMoods(logs: seq<DayLog>): seq<Mood> {
    if logs == [] then [] else AllMoods(logs[..|logs| - 1]) + Calendar.LogMoods(logs[|logs| - 1])
  }

  /** Every log's mood entries are all counted. */
  lemma {:induction false} AllMoodsCounts(logs: seq<DayLog>, i: nat)
    requires i < |logs|
    ensures multiset(Calendar.LogMoods(logs[i])) <= multiset(AllMoods(logs))
  {
    var init := logs[..|logs| - 1];
    var prior, own := AllMoods(init), Calendar.LogMoods(logs[|logs| - 1]);
    assert multiset(AllMoods(logs)) == multiset(prior) + multiset(own);
    if i < |init| {
      AllMoodsCounts(init, i);
      assert init[i] == logs[i];
    }
  }

  /** A mood is counted only when some log carries it. */
  lemma {:induction false} AllMoodsFrom(logs: seq<DayLog>, m: Mood)
    requires m in AllMoods(logs)
    ensures exists k :: 0 <= k < |logs| && m in Calendar.LogMoods(logs[k])
  {
    var init := logs[..|logs| - 1];
    if m in AllMoods(init) {
      AllMoodsFrom(init, m);
      var k :| 0 <= k < |init| && m in Calendar.LogMoods(init[k]);
      assert init[k] == logs[k];
    } else {
      assert m in Calendar.LogMoods(logs[|logs| - 1]);
    }
  }

  /** The distinct elements of `s`, in the order of their first occurrence. */
  function Dedup(s: seq<Mood>): (r: seq<Mood>)
    ensures forall x :: x in r <==> x in s
    ensures Distinct(r)
  {
    if s == [] then []
    else
      var init := s[..|s| - 1];
      var d := Dedup(init);
      if s[|s| - 1] in init then d else d + [s[|s| - 1]]
  }

  predicate Distinct(s: seq<Mood>) {
    forall i, j :: 0 <= i < j < |s| ==> s[i] != s[j]
  }

  /** The bars for `keys`, each with its number of entries in `counts`. */
  function Bars(keys: seq<Mood>, counts: multiset<Mood>): (r: seq<MoodBar>)
    ensures |r| == |keys|
    ensures forall i :: 0 <= i < |r| ==> r[i] == MoodBar(keys[i], counts[keys[i]], BarColor)
  {
    if keys == [] then []
    else Bars(keys[..|keys| - 1], counts) + [MoodBar(keys[|keys| - 1], counts[keys[|keys| - 1]], BarColor)]
  }

  /** What `moodData` yields: the mock chart if nothing was counted, else one bar per distinct mood. */
  function MoodChart(logs: seq<DayLog>): (r: seq<MoodBar>)
    ensures AllMoods(logs) != [] ==> |r| == |Dedup(AllMoods(logs))|
    ensures AllMoods(logs) != [] ==> forall i :: 0 <= i < |r| ==> r[i].name in AllMoods(logs)
  {
    var all := AllMoods(logs);
    if all == [] then MockMoodData else Bars(Dedup(all), multiset(all))
  }

  /** `counts` and `order` hold the tally of `seen`: its distinct moods in first-occurrence order, each with its count. */
  ghost predicate Tally(counts: map<Mood, nat>, order: seq<Mood>, seen: seq<Mood>) {
    && order == Dedup(seen)
    && (forall m :: m in counts <==> m in seen)
    && (forall m :: m in counts ==> counts[m] == multiset(seen)[m])
  }

  /** Counting an entry already seen bumps its count; the key order stays. */
  lemma TallyBump(counts: map<Mood, nat>, order: seq<Mood>, seen: seq<Mood>, m: Mood)
    requires Tally(counts, order, seen) && m in counts
    ensures Tally(counts[m := counts[m] + 1], order, seen + [m])
  {
    var seen' := seen + [m];
    assert seen'[..|seen|] == seen;
    assert multiset(seen') == multiset(seen) + multiset{m};
    assert m in seen;
    assert Dedup(seen') == Dedup(seen);
  }

  /** Counting a new entry inserts it with count 1 at the end of the key order. */
  lemma TallyInsert(counts: map<Mood, nat>, order: seq<Mood>, seen: seq<Mood>, m: Mood)
    requires Tally(counts, order, seen) && m !in counts
    ensures Tally(counts[m := 1], order + [m], seen + [m])
  {
    var seen' := seen + [m];
    assert seen'[..|seen|] == seen;
    assert multiset(seen') == multiset(seen) + multiset{m};
    assert m !in seen;
    assert multiset(seen)[m] == 0;
    assert Dedup(seen') == Dedup(seen) + [m];
  }

  lemma PrefixStep(done: seq<Mood>, list: seq<Mood>, j: nat)
    requires j < |list|
    ensures done + list[..j + 1] == done + list[..j] + [list[j]]
  {
    assert list[..j + 1] == list[..j] + [list[j]];
  }

  lemma AllMoodsStep(logs: seq<DayLog>, i: nat)
    requires i < |logs|
    ensures AllMoods(logs[..i + 1]) == AllMoods(logs[..i]) + Calendar.LogMoods(logs[i])
  {
    assert logs[..i + 1][..i] == logs[..i];
  }

  /** The inner `forEach`: count one log's moods into the dictionary. */
  method CountMoods(counts: map<Mood, nat>, order: seq<Mood>, moodList: seq<Mood>, ghost seen: seq<Mood>)
    returns (counts': map<Mood, nat>, order': seq<Mood>)
    requires Tally(counts, order, seen)
    ensures Tally(counts', order', seen + moodList)
  {
    counts', order' := counts, order;
    ghost var done := seen;
    assert seen + moodList[..0] == seen;
    for j := 0 to |moodList|
      invariant done == seen + moodList[..j]
      invariant Tally(counts', order', done)
    {
      var m := moodList[j];
      if m in counts' {
        TallyBump(counts', order', done, m);
        counts' := counts'[m := counts'[m] + 1];
      } else {
        TallyInsert(counts', order', done, m);
        counts' := counts'[m := 1];
        order' := order' + [m];
      }
      PrefixStep(seen, moodList, j);
      done := done + [m];
    }
    assert moodList[..|moodList|] == moodList;
  }

  /**
   * `moodData`: count every mood entry of every log (the legacy single mood
   * as a one-element list) into a dictionary, then list its keys in
   * insertion order with their counts; with no counts, the mock chart.
   * `logs` is `Object.values(logs)`, in the store's iteration order.
   */
  method MoodData(logs: seq<DayLog>) returns (r: seq<MoodBar>)
    ensures r == MoodChart(logs)
  {
    var counts: map<Mood, nat> := map[];
    var order: seq<Mood> := [];
    ghost var seen: seq<Mood> := [];
    for i := 0 to |logs|
      invariant seen == AllMoods(logs[..i])
      invariant Tally(counts, order, seen)
    {
      var moodList := Calendar.LogMoods(logs[i]);
      counts, order := CountMoods(counts, order, moodList, seen);
      seen := seen + moodList;
      AllMoodsStep(logs, i);
    }
    assert logs[..|logs|] == logs;
    TallyEmpty(counts, order, seen);
    if counts == map[] {
      return MockMoodData;
    }
    TallyBars(counts, order, seen);
    r := BarsOf(order, counts);
  }

  /** `Object.keys(counts).map(...)`: one bar per key, with the key's count. */
  function BarsOf(keys: seq<Mood>, counts: map<Mood, nat>): (r: seq<MoodBar>)
    requires forall m :: m in keys ==> m in counts
    ensures |r| == |keys|
    ensures forall i :: 0 <= i < |r| ==> r[i] == MoodBar(keys[i], counts[keys[i]], BarColor)
  {
    seq(|keys|, i requires 0 <= i < |keys| => MoodBar(keys[i], counts[keys[i]], BarColor))
  }

  /** A tally is an empty dictionary exactly when nothing was counted. */
  lemma TallyEmpty(counts: map<Mood, nat>, order: seq<Mood>, seen: seq<Mood>)
    requires Tally(counts, order, seen)
    ensures counts == map[] <==> seen == []
  {
    if seen != [] {
      assert seen[0] in counts;
    }
  }

  /** On a tally, the bars read from the dictionary are the bars of the counted entries. */
  lemma TallyBars(counts: map<Mood, nat>, order: seq<Mood>, seen: seq<Mood>)
    requires Tally(counts, order, seen)
    ensures forall m :: m in order ==> m in counts
    ensures BarsOf(order, counts) == Bars(order, multiset(seen))
  {
  }

  /** The sum of the bar values. */
  function Total(bars: seq<MoodBar>): int {
    if bars == [] then 0 else Total(bars[..|bars| - 1]) + bars[|bars| - 1].value
  }

  /**
   * With at least one mood logged, the chart has one bar per distinct mood,
   * each with the number of times it was logged (so a positive count) and the
   * common colour; the counts add up to the number of mood entries.
   */
  lemma MoodChartCounts(logs: seq<DayLog>)
    requires AllMoods(logs) != []
    ensures var r := MoodChart(logs);
      var all := AllMoods(logs);
      && (forall i :: 0 <= i < |r| ==> r[i].value == multiset(all)[r[i].name] > 0 && r[i].color == BarColor)
      && (forall i, j :: 0 <= i < j < |r| ==> r[i].name != r[j].name)
      && (forall m :: m in all <==> exists i :: 0 <= i < |r| && r[i].name == m)
      && Total(r) == |all|
  {
    var all := AllMoods(logs);
    BarsOfDedup(all);
    TotalOfDedup(all);
  }

  /** The bars over the distinct moods of `s` name each mood of `s` once, with its positive count. */
  lemma BarsOfDedup(s: seq<Mood>)
    ensures var r := Bars(Dedup(s), multiset(s));
      && (forall i :: 0 <= i < |r| ==> r[i].value == multiset(s)[r[i].name] > 0 && r[i].color == BarColor)
      && (forall i, j :: 0 <= i < j < |r| ==> r[i].name != r[j].name)
      && (forall m :: m in s <==> exists i :: 0 <= i < |r| && r[i].name == m)
  {
    var d := Dedup(s);
    var r := Bars(d, multiset(s));
    forall m | m in s ensures exists i :: 0 <= i < |r| && r[i].name == m {
      var i :| 0 <= i < |d| && d[i] == m;
      assert r[i].name == m;
    }
    forall i | 0 <= i < |r| ensures multiset(s)[r[i].name] > 0 {
      assert d[i] in d;
    }
  }

  /** With no mood logged, the chart is the fixed three-bar mock. */
  lemma MoodChartEmpty(logs: seq<DayLog>)
    requires forall i :: 0 <= i < |logs| ==> Calendar.LogMoods(logs[i]) == []
    ensures MoodChart(logs) == MockMoodData
  {
    NoMoods(logs);
  }

  lemma {:induction false} NoMoods(logs: seq<DayLog>)
    requires forall i :: 0 <= i < |logs| ==> Calendar.LogMoods(logs[i]) == []
    ensures AllMoods(logs) == []
  {
    if logs != [] {
      NoMoods(logs[..|logs| - 1]);
    }
  }

  /** The bars over the distinct moods of `s` count every entry of `s` exactly once. */
  lemma {:induction false} TotalOfDedup(s: seq<Mood>)
    ensures Total(Bars(Dedup(s), multiset(s))) == |s|
  {
    if s != [] {
      var init, x := s[..|s| - 1], s[|s| - 1];
      assert s == init + [x];
      var d := Dedup(init);
      TotalOfDedup(init);
      TotalAdd(d, multiset(init), x);
      if x !in init {
        var ms := multiset(s);
        assert Bars(d + [x], ms) == Bars(d, ms) + [MoodBar(x, ms[x], BarColor)] by {
          assert (d + [x])[..|d|] == d;
        }
        assert x !in multiset(init);
        assert ms[x] == 1;
      }
    }
  }

  /** Adding one entry `x` raises the total over distinct keys by one exactly when `x` is a key. */
  lemma {:induction false} TotalAdd(keys: seq<Mood>, counts: multiset<Mood>, x: Mood)
    requires Distinct(keys)
    ensures Total(Bars(keys, counts + multiset{x}))
         == Total(Bars(keys, counts)) + (if x in keys then 1 else 0)
  {
    if keys != [] {
      var init, k := keys[..|keys| - 1], keys[|keys| - 1];
      var counts' := counts + multiset{x};
      assert Distinct(init);
      TotalAdd(init, counts, x);
      TotalSnoc(Bars(init, counts'), MoodBar(k, counts'[k], BarColor));
      TotalSnoc(Bars(init, counts), MoodBar(k, counts[k], BarColor));
      assert keys == init + [k];
      assert x in keys <==> x in init || x == k;
      assert x == k ==> x !in init;
    }
  }

  lemma TotalSnoc(bars: seq<MoodBar>, b: MoodBar)
    ensures Total(bars + [b]) == Total(bars) + b.value
  {
    assert (bars + [b])[..|bars|] == bars;
  }
}
