/**
 * The stable sort by bar time that the initial history load applies before it
 * replaces a series (`Collections.sort` with a `Long.compare` comparator, which
 * the Java library specifies as stable). Modelled as a functional insertion
 * sort that places each bar after every earlier bar whose time is not greater.
 */
module TimeSort {
  import opened Dto

  /** The bars of `s` whose time is `t`, in their order in `s`. */
  function WithTime(s: seq<Candle>, t: int): seq<Candle>
    decreases |s|
  {
    if |s| == 0 then []
    else WithTime(s[..|s| - 1], t) + (if s[|s| - 1].time == t then [s[|s| - 1]] else [])
  }

  lemma {:induction false} WithTimeAppend(a: seq<Candle>, b: seq<Candle>, t: int)
    ensures WithTime(a + b, t) == WithTime(a, t) + WithTime(b, t)
    decreases |b|
  {
    if |b| == 0 {
      assert a + b == a;
    } else {
      var b' := b[..|b| - 1];
      assert (a + b)[..|a + b| - 1] == a + b';
      WithTimeAppend(a, b', t);
    }
  }

  /** Inserts `x` into the sorted `s` after every bar whose time is at most `x.time`. */
  function InsertByTime(x: Candle, s: seq<Candle>): (r: seq<Candle>)
    requires SortedByTime(s)
    ensures SortedByTime(r)
    ensures multiset(r) == multiset(s) + multiset{x}
    decreases |s|
  {
    if |s| == 0 then [x]
    else if s[|s| - 1].time <= x.time then
      SortedExtend(s, x);
      s + [x]
    else
      var init := s[..|s| - 1];
      var last := s[|s| - 1];
      SortedPrefix(s, |s| - 1);
      var r' := InsertByTime(x, init);
      assert s == init + [last];
      assert |r'| > 0 && r'[|r'| - 1].time <= last.time by {
        assert r'[|r'| - 1] in multiset(init) + multiset{x};
      }
      SortedExtend(r', last);
      r' + [last]
  }

  /** Insertion keeps equal-time bars in order: `x` lands after every bar of its own time. */
  lemma {:induction false} InsertByTimeStable(x: Candle, s: seq<Candle>, t: int)
    requires SortedByTime(s)
    ensures WithTime(InsertByTime(x, s), t) == WithTime(s, t) + (if x.time == t then [x] else [])
    decreases |s|
  {
    if |s| == 0 {
      WithTimeSingle(x, t);
    } else if s[|s| - 1].time <= x.time {
      WithTimeAppend(s, [x], t);
      WithTimeSingle(x, t);
    } else {
      var init := s[..|s| - 1];
      var last := s[|s| - 1];
      SortedPrefix(s, |s| - 1);
      var r' := InsertByTime(x, init);
      assert InsertByTime(x, s) == r' + [last];
      assert s == init + [last];
      InsertByTimeStable(x, init, t);
      WithTimeAppend(r', [last], t);
      WithTimeAppend(init, [last], t);
      WithTimeSingle(last, t);
      WithTimeSingle(x, t);
    }
  }

  lemma WithTimeSingle(x: Candle, t: int)
    ensures WithTime([x], t) == (if x.time == t then [x] else [])
  {
    assert [x][..0] == [];
  }

  /**
   * Sorts bars by ascending time, keeping bars of equal time in their original
   * relative order.
   */
  function SortByTime(s: seq<Candle>): (r: seq<Candle>)
    ensures SortedByTime(r)
    ensures multiset(r) == multiset(s)
    decreases |s|
  {
    if |s| == 0 then []
    else
      assert s == s[..|s| - 1] + [s[|s| - 1]];
      InsertByTime(s[|s| - 1], SortByTime(s[..|s| - 1]))
  }

  /** Bars of equal time keep their original relative order through the sort. */
  lemma {:induction false} SortByTimeStable(s: seq<Candle>, t: int)
    ensures WithTime(SortByTime(s), t) == WithTime(s, t)
    decreases |s|
  {
    if |s| > 0 {
      var init := s[..|s| - 1];
      SortByTimeStable(init, t);
      InsertByTimeStable(s[|s| - 1], SortByTime(init), t);
    }
  }

  /** A sorted sequence whose times are pairwise distinct is strictly increasing. */
  lemma SortedDistinctIsStrict(s: seq<Candle>)
    requires SortedByTime(s)
    requires forall i, j :: 0 <= i < j < |s| ==> s[i].time != s[j].time
    ensures StrictlyIncreasing(s)
  {
    var ts := Times(s);
    forall i, j | 0 <= i < j < |ts| ensures ts[i] < ts[j] {
      assert ts[i] <= ts[j] && s[i].time != s[j].time;
    }
  }

  /** Sorting bars of pairwise distinct times yields a strictly increasing series. */
  lemma SortDistinctIsStrict(s: seq<Candle>)
    requires forall i, j :: 0 <= i < j < |s| ==> s[i].time != s[j].time
    ensures StrictlyIncreasing(SortByTime(s))
  {
    var r := SortByTime(s);
    forall i, j | 0 <= i < j < |r| ensures r[i].time != r[j].time {
      if r[i].time == r[j].time {
        var t := r[i].time;
        CountWithTime(r, i, j, t);
        SortByTimeStable(s, t);
        AtMostOneWithTime(s, t);
        assert false;
      }
    }
  }

  /** Two positions holding time `t` make `WithTime` at least two long. */
  lemma {:induction false} CountWithTime(s: seq<Candle>, i: int, j: int, t: int)
    requires 0 <= i < j < |s|
    requires s[i].time == t && s[j].time == t
    ensures |WithTime(s, t)| >= 2
    decreases |s|
  {
    var init := s[..|s| - 1];
    if j == |s| - 1 {
      WithTimeMember(init, i, t);
    } else {
      CountWithTime(init, i, j, t);
    }
  }

  lemma {:induction false} WithTimeMember(s: seq<Candle>, i: int, t: int)
    requires 0 <= i < |s|
    requires s[i].time == t
    ensures |WithTime(s, t)| >= 1
    decreases |s|
  {
    if i < |s| - 1 {
      WithTimeMember(s[..|s| - 1], i, t);
    }
  }

  lemma {:induction false} AtMostOneWithTime(s: seq<Candle>, t: int)
    requires forall i, j :: 0 <= i < j < |s| ==> s[i].time != s[j].time
    ensures |WithTime(s, t)| <= 1
    decreases |s|
  {
    if |s| > 0 {
      var init := s[..|s| - 1];
      AtMostOneWithTime(init, t);
      if s[|s| - 1].time == t && |WithTime(init, t)| == 1 {
        var k := WithTimeWitness(init, t);
        assert false;
      }
    }
  }

  lemma {:induction false} WithTimeWitness(s: seq<Candle>, t: int) returns (k: int)
    requires |WithTime(s, t)| >= 1
    ensures 0 <= k < |s| && s[k].time == t
    decreases |s|
  {
    var init := s[..|s| - 1];
    if s[|s| - 1].time == t {
      k := |s| - 1;
    } else {
      k := WithTimeWitness(init, t);
    }
  }
}
