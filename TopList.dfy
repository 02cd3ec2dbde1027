/**
 * nlargest(10, col) over the per-artist table (lines 52-56): a stable sort
 * by descending total followed by taking the first ten rows, then keeping
 * only the artist and the dictionary of the ranked column.
 *
 * With keep='first' a tie goes to the earlier row; the per-artist table is in
 * ascending artist order, so the earlier row is the alphabetically smaller
 * artist.
 */
module TopList {
  import opened Text
  import opened Aggregate

  /** The n of nlargest(10, col). */
  const TopN: nat := 10

  function Min(a: nat, b: nat): nat {
    if a <= b then a else b
  }

  /** `x` ranks ahead of `y` on column `m`: a larger total, or an equal total and an earlier artist. */
  predicate Before(x: Summary, y: Summary, m: Metric) {
    SummaryCount(x, m) > SummaryCount(y, m)
    || (SummaryCount(x, m) == SummaryCount(y, m) && StrLess(x.artist, y.artist))
  }

  predicate Ranked(o: seq<Summary>, m: Metric) {
    forall i, j :: 0 <= i < j < |o| ==> Before(o[i], o[j], m)
  }

  /** Puts `x` ahead of the first row whose total does not exceed its own, so `x` precedes its ties. */
  function InsertByTotal(x: Summary, o: seq<Summary>, m: Metric): (r: seq<Summary>)
    ensures |r| == |o| + 1
  {
    if o == [] then [x]
    else if SummaryCount(o[0], m) <= SummaryCount(x, m) then [x] + o
    else [o[0]] + InsertByTotal(x, o[1..], m)
  }

  /** A stable sort by descending total: rows with equal totals keep their table order. */
  function SortByTotal(s: seq<Summary>, m: Metric): (r: seq<Summary>)
    ensures |r| == |s|
  {
    if s == [] then [] else InsertByTotal(s[0], SortByTotal(s[1..], m), m)
  }

  /** The rows nlargest(10, col) returns, in its order. */
  function Largest(s: seq<Summary>, m: Metric): (r: seq<Summary>)
    ensures |r| == Min(TopN, |s|)
    ensures forall i :: 0 <= i < |r| ==> r[i] in s
  {
    var sorted := SortByTotal(s, m);
    SortByTotalPerm(s, m);
    assert forall i :: 0 <= i < |sorted| ==> sorted[i] in multiset(s);
    sorted[..Min(TopN, |sorted|)]
  }

  /** One row of a top list: the artist and the dictionary of the ranked column. */
  datatype TopEntry = TopEntry(artist: string, shares: seq<Share>)

  function Project(s: seq<Summary>, m: Metric): seq<TopEntry> {
    seq(|s|, i requires 0 <= i < |s| => TopEntry(s[i].artist, SummaryShares(s[i], m)))
  }

  /** Top_Content_Artist (m = Content) or Top_Million_Artist (m = Million). */
  function TopArtists(rs: seq<Record>, m: Metric): (l: seq<TopEntry>)
    ensures |l| == Min(TopN, |Summaries(rs)|)
  {
    Project(Largest(Summaries(rs), m), m)
  }

  /** The pair load_and_process_data returns. */
  function LoadAndProcess(rs: seq<Record>): (r: (seq<TopEntry>, seq<TopEntry>))
    ensures |r.0| == |r.1| == Min(TopN, |Artists(CleanRecords(rs))|)
    ensures forall i :: 0 <= i < |r.0| ==> r.0[i].artist in Artists(CleanRecords(rs))
    ensures forall i :: 0 <= i < |r.1| ==> r.1[i].artist in Artists(CleanRecords(rs))
  {
    TopArtistsEntries(rs, Content);
    TopArtistsEntries(rs, Million);
    (TopArtists(rs, Content), TopArtists(rs, Million))
  }

  // ---------------------------------------------------------------------
  // The sort
  // ---------------------------------------------------------------------

  lemma {:induction false} InsertByTotalPerm(x: Summary, o: seq<Summary>, m: Metric)
    ensures multiset(InsertByTotal(x, o, m)) == multiset(o) + multiset{x}
    ensures |InsertByTotal(x, o, m)| == |o| + 1
  {
    if o != [] && SummaryCount(o[0], m) > SummaryCount(x, m) {
      InsertByTotalPerm(x, o[1..], m);
      assert o == [o[0]] + o[1..];
    }
  }

  /** The sort is a permutation of its input. */
  lemma {:induction false} SortByTotalPerm(s: seq<Summary>, m: Metric)
    ensures multiset(SortByTotal(s, m)) == multiset(s)
    ensures |SortByTotal(s, m)| == |s|
  {
    if s != [] {
      var r := SortByTotal(s[1..], m);
      SortByTotalPerm(s[1..], m);
      InsertByTotalPerm(s[0], r, m);
      assert SortByTotal(s, m) == InsertByTotal(s[0], r, m);
      assert s == [s[0]] + s[1..];
      assert multiset(s) == multiset{s[0]} + multiset(s[1..]);
    }
  }

  lemma {:induction false} InsertByTotalRanked(x: Summary, o: seq<Summary>, m: Metric)
    requires Ranked(o, m)
    requires forall k :: 0 <= k < |o| ==> StrLess(x.artist, o[k].artist)
    ensures Ranked(InsertByTotal(x, o, m), m)
  {
    if o == [] {
    } else if SummaryCount(o[0], m) <= SummaryCount(x, m) {
      assert forall k :: 0 < k < |o| ==> Before(o[0], o[k], m);
    } else {
      var rest := InsertByTotal(x, o[1..], m);
      InsertByTotalRanked(x, o[1..], m);
      InsertByTotalPerm(x, o[1..], m);
      forall k | 0 <= k < |rest|
        ensures Before(o[0], rest[k], m)
      {
        assert rest[k] in multiset(o[1..]) + multiset{x};
        if rest[k] != x {
          assert rest[k] in o[1..];
        }
      }
      assert InsertByTotal(x, o, m) == [o[0]] + rest;
    }
  }

  /** Over a table in ascending artist order, the stable sort ranks by (total descending, artist ascending). */
  lemma {:induction false} SortByTotalRanked(s: seq<Summary>, m: Metric)
    requires SummariesAscending(s)
    ensures Ranked(SortByTotal(s, m), m)
  {
    if s != [] {
      var o := SortByTotal(s[1..], m);
      SortByTotalRanked(s[1..], m);
      SortByTotalPerm(s[1..], m);
      forall k | 0 <= k < |o|
        ensures StrLess(s[0].artist, o[k].artist)
      {
        assert o[k] in multiset(s[1..]);
        var j :| 0 <= j < |s[1..]| && s[1..][j] == o[k];
        assert s[j + 1] == o[k];
      }
      InsertByTotalRanked(s[0], o, m);
    }
  }

  /** In a table of ascending artists, rows with the same artist are the same row. */
  lemma AscendingArtistUnique(s: seq<Summary>)
    requires SummariesAscending(s)
    ensures forall p, q :: 0 <= p < |s| && 0 <= q < |s| && s[p].artist == s[q].artist ==> p == q
  {
    forall p, q | 0 <= p < |s| && 0 <= q < |s| && s[p].artist == s[q].artist
      ensures p == q
    {
      StrLessIrreflexive(s[p].artist);
    }
  }

  /**
   * nlargest(10): min(10, n) rows of the table, ranked by descending total
   * with ties to the earlier artist, no artist twice, and every row left out
   * ranks behind every row kept.
   */
  lemma LargestSpec(s: seq<Summary>, m: Metric)
    requires SummariesAscending(s)
    ensures |Largest(s, m)| == Min(TopN, |s|)
    ensures forall i :: 0 <= i < |Largest(s, m)| ==> Largest(s, m)[i] in s
    ensures Ranked(Largest(s, m), m)
    ensures forall i, j :: 0 <= i < j < |Largest(s, m)| ==> Largest(s, m)[i].artist != Largest(s, m)[j].artist
    ensures forall i, y :: 0 <= i < |Largest(s, m)| && y in s && y !in Largest(s, m) ==> Before(Largest(s, m)[i], y, m)
  {
    var p := SortByTotal(s, m);
    var n := Min(TopN, |s|);
    var l := Largest(s, m);
    SortByTotalPerm(s, m);
    SortByTotalRanked(s, m);
    assert l == p[..n];
    forall i | 0 <= i < |l|
      ensures l[i] in s
    {
      assert l[i] == p[i];
      assert p[i] in multiset(s);
    }
    forall i, j | 0 <= i < j < |l|
      ensures l[i].artist != l[j].artist
    {
      assert Before(p[i], p[j], m);
      AscendingArtistUnique(s);
      StrLessIrreflexive(l[i].artist);
      var a :| 0 <= a < |s| && s[a] == l[i];
      var b :| 0 <= b < |s| && s[b] == l[j];
    }
    forall i, y | 0 <= i < |l| && y in s && y !in l
      ensures Before(l[i], y, m)
    {
      assert y in multiset(p);
      var j :| 0 <= j < |p| && p[j] == y;
      assert forall k :: 0 <= k < n ==> l[k] == p[k];
      assert l[i] == p[i];
    }
  }

  // ---------------------------------------------------------------------
  // The returned lists, in terms of the input records
  // ---------------------------------------------------------------------

  predicate Listed(l: seq<TopEntry>, a: string) {
    exists i :: 0 <= i < |l| && l[i].artist == a
  }

  function SummaryArtists(s: seq<Summary>): set<string> {
    if s == [] then {} else {s[0].artist} + SummaryArtists(s[1..])
  }

  lemma {:induction false} SummaryArtistsIndex(s: seq<Summary>, a: string)
    ensures a in SummaryArtists(s) <==> exists i :: 0 <= i < |s| && s[i].artist == a
  {
    if s != [] {
      SummaryArtistsIndex(s[1..], a);
      if a in SummaryArtists(s[1..]) {
        var i :| 0 <= i < |s[1..]| && s[1..][i].artist == a;
        assert s[i + 1].artist == a;
      }
      if exists i :: 0 <= i < |s| && s[i].artist == a {
        var i :| 0 <= i < |s| && s[i].artist == a;
        if i > 0 {
          assert s[1..][i - 1].artist == a;
        }
      }
    }
  }

  lemma {:induction false} SummaryArtistsCount(s: seq<Summary>)
    requires SummariesAscending(s)
    ensures |SummaryArtists(s)| == |s|
  {
    if s != [] {
      var tail := SummaryArtists(s[1..]);
      SummaryArtistsCount(s[1..]);
      forall a | a in tail
        ensures StrLess(s[0].artist, a)
      {
        SummaryArtistsIndex(s[1..], a);
        var i :| 0 <= i < |s[1..]| && s[1..][i].artist == a;
        assert s[i + 1].artist == a;
      }
      StrLessIrreflexive(s[0].artist);
      assert s[0].artist !in tail;
    }
  }

  /** The per-artist table has one row per distinct cleaned artist. */
  lemma SummariesCount(rs: seq<Record>)
    ensures |Summaries(rs)| == |Artists(CleanRecords(rs))|
  {
    var s := Summaries(rs);
    SummariesArtists(rs, "");
    SummaryArtistsCount(s);
    forall a
      ensures a in SummaryArtists(s) <==> a in Artists(CleanRecords(rs))
    {
      SummariesArtists(rs, a);
      SummaryArtistsIndex(s, a);
    }
    assert SummaryArtists(s) == Artists(CleanRecords(rs));
  }

  /** Each row nlargest keeps is an input artist's row, with that artist's sums and channels. */
  lemma LargestRowsFaithful(rs: seq<Record>, m: Metric)
    ensures forall i :: 0 <= i < |Largest(Summaries(rs), m)| ==>
              var x := Largest(Summaries(rs), m)[i];
              && x.artist in Artists(CleanRecords(rs))
              && SummaryCount(x, m) == ArtistSum(CleanRecords(rs), x.artist, m)
              && ShareSum(SummaryShares(x, m)) == SummaryCount(x, m)
              && ShareChannels(SummaryShares(x, m)) == ChannelsOf(CleanRecords(rs), x.artist)
  {
    var s := Summaries(rs);
    var l := Largest(s, m);
    SummariesArtists(rs, "");
    LargestSpec(s, m);
    forall i | 0 <= i < |l|
      ensures l[i].artist in Artists(CleanRecords(rs))
      ensures SummaryCount(l[i], m) == ArtistSum(CleanRecords(rs), l[i].artist, m)
      ensures ShareSum(SummaryShares(l[i], m)) == SummaryCount(l[i], m)
      ensures ShareChannels(SummaryShares(l[i], m)) == ChannelsOf(CleanRecords(rs), l[i].artist)
    {
      var p :| 0 <= p < |s| && s[p] == l[i];
      SummaryRow(rs, p, m);
      SummariesArtists(rs, l[i].artist);
    }
  }

  /**
   * A returned top list has min(10, number of distinct cleaned artists)
   * entries, each an input artist whose dictionary has exactly that
   * artist's channels and sums to the artist's total.
   */
  lemma TopArtistsEntries(rs: seq<Record>, m: Metric)
    ensures |TopArtists(rs, m)| == Min(TopN, |Artists(CleanRecords(rs))|)
    ensures forall i :: 0 <= i < |TopArtists(rs, m)| ==>
              && TopArtists(rs, m)[i].artist in Artists(CleanRecords(rs))
              && ShareSum(TopArtists(rs, m)[i].shares) == ArtistSum(CleanRecords(rs), TopArtists(rs, m)[i].artist, m)
              && ShareChannels(TopArtists(rs, m)[i].shares) == ChannelsOf(CleanRecords(rs), TopArtists(rs, m)[i].artist)
  {
    SummariesArtists(rs, "");
    SummariesCount(rs);
    LargestSpec(Summaries(rs), m);
    LargestRowsFaithful(rs, m);
  }

  /** Entries run by descending input total, ties in artist order. */
  lemma TopArtistsOrder(rs: seq<Record>, m: Metric)
    ensures forall i, j :: 0 <= i < j < |TopArtists(rs, m)| ==>
              var x := ArtistSum(CleanRecords(rs), TopArtists(rs, m)[i].artist, m);
              var y := ArtistSum(CleanRecords(rs), TopArtists(rs, m)[j].artist, m);
              x > y || (x == y && StrLess(TopArtists(rs, m)[i].artist, TopArtists(rs, m)[j].artist))
  {
    var l := Largest(Summaries(rs), m);
    SummariesArtists(rs, "");
    LargestSpec(Summaries(rs), m);
    LargestRowsFaithful(rs, m);
    assert forall i, j :: 0 <= i < j < |l| ==> Before(l[i], l[j], m);
  }

  /** No artist left out of a top list ranks ahead of a listed one. */
  lemma TopArtistsExcluded(rs: seq<Record>, m: Metric)
    ensures forall i, a :: 0 <= i < |TopArtists(rs, m)| && a in Artists(CleanRecords(rs)) && !Listed(TopArtists(rs, m), a) ==>
              var x := ArtistSum(CleanRecords(rs), TopArtists(rs, m)[i].artist, m);
              var y := ArtistSum(CleanRecords(rs), a, m);
              x > y || (x == y && StrLess(TopArtists(rs, m)[i].artist, a))
  {
    forall i, a | 0 <= i < |TopArtists(rs, m)| && a in Artists(CleanRecords(rs)) && !Listed(TopArtists(rs, m), a)
      ensures var x := ArtistSum(CleanRecords(rs), TopArtists(rs, m)[i].artist, m);
              var y := ArtistSum(CleanRecords(rs), a, m);
              x > y || (x == y && StrLess(TopArtists(rs, m)[i].artist, a))
    {
      ExcludedBehind(rs, m, i, a);
    }
  }

  lemma ExcludedBehind(rs: seq<Record>, m: Metric, i: int, a: string)
    requires 0 <= i < |TopArtists(rs, m)|
    requires a in Artists(CleanRecords(rs)) && !Listed(TopArtists(rs, m), a)
    ensures var x := ArtistSum(CleanRecords(rs), TopArtists(rs, m)[i].artist, m);
            var y := ArtistSum(CleanRecords(rs), a, m);
            x > y || (x == y && StrLess(TopArtists(rs, m)[i].artist, a))
  {
    var s := Summaries(rs);
    var l := Largest(s, m);
    SummariesArtists(rs, "");
    SummariesArtists(rs, a);
    var q :| 0 <= q < |s| && s[q].artist == a;
    SummaryRow(rs, q, m);
    UnlistedNotKept(l, m, s[q]);
    LargestSpec(s, m);
    LargestRowsFaithful(rs, m);
    assert Before(l[i], s[q], m);
    assert TopArtists(rs, m)[i].artist == l[i].artist;
  }

  /** A row whose artist is not in the projected list is not among the rows projected. */
  lemma UnlistedNotKept(l: seq<Summary>, m: Metric, x: Summary)
    requires !Listed(Project(l, m), x.artist)
    ensures x !in l
  {
    forall k | 0 <= k < |l|
      ensures l[k] != x
    {
      assert Project(l, m)[k].artist == l[k].artist;
    }
  }

  /**
   * A returned top list, stated over the cleaned input records: it has
   * min(10, number of distinct artists) entries; each entry is an input artist
   * whose dictionary has exactly that artist's channels and sums to the
   * artist's total; entries run by descending total with ties in artist
   * order (so no artist appears twice); and no artist left out has a larger
   * total than a listed one, or an equal total and an earlier name.
   */
  lemma TopArtistsSpec(rs: seq<Record>, m: Metric)
    ensures |TopArtists(rs, m)| == Min(TopN, |Artists(CleanRecords(rs))|)
    ensures forall i :: 0 <= i < |TopArtists(rs, m)| ==>
              && TopArtists(rs, m)[i].artist in Artists(CleanRecords(rs))
              && ShareSum(TopArtists(rs, m)[i].shares) == ArtistSum(CleanRecords(rs), TopArtists(rs, m)[i].artist, m)
              && ShareChannels(TopArtists(rs, m)[i].shares) == ChannelsOf(CleanRecords(rs), TopArtists(rs, m)[i].artist)
    ensures forall i, j :: 0 <= i < j < |TopArtists(rs, m)| ==>
              var x := ArtistSum(CleanRecords(rs), TopArtists(rs, m)[i].artist, m);
              var y := ArtistSum(CleanRecords(rs), TopArtists(rs, m)[j].artist, m);
              x > y || (x == y && StrLess(TopArtists(rs, m)[i].artist, TopArtists(rs, m)[j].artist))
    ensures forall i, a :: 0 <= i < |TopArtists(rs, m)| && a in Artists(CleanRecords(rs)) && !Listed(TopArtists(rs, m), a) ==>
              var x := ArtistSum(CleanRecords(rs), TopArtists(rs, m)[i].artist, m);
              var y := ArtistSum(CleanRecords(rs), a, m);
              x > y || (x == y && StrLess(TopArtists(rs, m)[i].artist, a))
  {
    TopArtistsEntries(rs, m);
    TopArtistsOrder(rs, m);
    TopArtistsExcluded(rs, m);
  }
}
