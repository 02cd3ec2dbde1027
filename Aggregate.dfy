/**
 * The aggregation body of load_and_process_data: clean every artist name,
 * sum both counts per (artist, channel) key, group those rows per artist with
 * a channel -> count dictionary, and left-merge the two per-artist tables.
 *
 * pandas groupby sorts its keys, so both group stages are ordered by the
 * code-point order of Text.StrLess. A Python dict keeps insertion order, so a
 * channel dictionary is a sequence of shares whose channels are ascending.
 */
module Aggregate {
  import opened Text

  /** One spreadsheet row; stage-1 rows have the same four columns. */
  datatype Record = Record(artist: string, channel: string, content: nat, million: nat)

  /** The two summed columns: "No of content" and "No of Content Above Million". */
  datatype Metric = Content | Million

  function Count(r: Record, m: Metric): nat {
    match m
    case Content => r.content
    case Million => r.million
  }

  // ---------------------------------------------------------------------
  // Specification functions over a table of records
  // ---------------------------------------------------------------------

  function Total(rs: seq<Record>, m: Metric): nat {
    if rs == [] then 0 else Count(rs[0], m) + Total(rs[1..], m)
  }

  /** Sum of one column over the records of one (artist, channel) key. */
  function KeySum(rs: seq<Record>, a: string, c: string, m: Metric): nat {
    if rs == [] then 0
    else (if rs[0].artist == a && rs[0].channel == c then Count(rs[0], m) else 0) + KeySum(rs[1..], a, c, m)
  }

  /** Sum of one column over the records of one artist. */
  function ArtistSum(rs: seq<Record>, a: string, m: Metric): nat {
    if rs == [] then 0
    else (if rs[0].artist == a then Count(rs[0], m) else 0) + ArtistSum(rs[1..], a, m)
  }

  function Keys(rs: seq<Record>): set<(string, string)> {
    if rs == [] then {} else {(rs[0].artist, rs[0].channel)} + Keys(rs[1..])
  }

  function Artists(rs: seq<Record>): set<string> {
    if rs == [] then {} else {rs[0].artist} + Artists(rs[1..])
  }

  /** The channels one artist appears with. */
  function ChannelsOf(rs: seq<Record>, a: string): set<string> {
    if rs == [] then {}
    else (if rs[0].artist == a then {rs[0].channel} else {}) + ChannelsOf(rs[1..], a)
  }

  lemma {:induction false} KeysIndex(rs: seq<Record>, a: string, c: string)
    ensures (a, c) in Keys(rs) <==> exists i :: 0 <= i < |rs| && rs[i].artist == a && rs[i].channel == c
  {
    if rs != [] {
      KeysIndex(rs[1..], a, c);
      if (a, c) in Keys(rs[1..]) {
        var i :| 0 <= i < |rs[1..]| && rs[1..][i].artist == a && rs[1..][i].channel == c;
        assert rs[i + 1] == rs[1..][i];
      }
      if exists i :: 0 <= i < |rs| && rs[i].artist == a && rs[i].channel == c {
        var i :| 0 <= i < |rs| && rs[i].artist == a && rs[i].channel == c;
        if i > 0 {
          assert rs[1..][i - 1] == rs[i];
        }
      }
    }
  }

  lemma {:induction false} ArtistsIndex(rs: seq<Record>, a: string)
    ensures a in Artists(rs) <==> exists i :: 0 <= i < |rs| && rs[i].artist == a
  {
    if rs != [] {
      ArtistsIndex(rs[1..], a);
      if a in Artists(rs[1..]) {
        var i :| 0 <= i < |rs[1..]| && rs[1..][i].artist == a;
        assert rs[i + 1] == rs[1..][i];
      }
      if exists i :: 0 <= i < |rs| && rs[i].artist == a {
        var i :| 0 <= i < |rs| && rs[i].artist == a;
        if i > 0 {
          assert rs[1..][i - 1] == rs[i];
        }
      }
    }
  }

  lemma {:induction false} ChannelsOfKeys(rs: seq<Record>, a: string, c: string)
    ensures c in ChannelsOf(rs, a) <==> (a, c) in Keys(rs)
  {
    if rs != [] {
      ChannelsOfKeys(rs[1..], a, c);
    }
  }

  lemma {:induction false} KeySumAbsent(rs: seq<Record>, a: string, c: string, m: Metric)
    requires (a, c) !in Keys(rs)
    ensures KeySum(rs, a, c, m) == 0
  {
    if rs != [] {
      KeySumAbsent(rs[1..], a, c, m);
    }
  }

  // ---------------------------------------------------------------------
  // Cleaning (lines 19 and 21 applied to the Artist column)
  // ---------------------------------------------------------------------

  /** Replaces each artist by its cleaned identifier; channels and counts are untouched. */
  function CleanRecords(rs: seq<Record>): (cs: seq<Record>)
    ensures |cs| == |rs|
    ensures forall i :: 0 <= i < |cs| ==> cs[i].artist == Clean(rs[i].artist)
    ensures forall i :: 0 <= i < |cs| ==>
              AllAllowed(cs[i].artist) && cs[i].channel == rs[i].channel &&
              cs[i].content == rs[i].content && cs[i].million == rs[i].million
  {
    seq(|rs|, i requires 0 <= i < |rs| => rs[i].(artist := Clean(rs[i].artist)))
  }

  /** Sum of one column over the raw records whose name cleans to `a`. */
  function RawArtistSum(rs: seq<Record>, a: string, m: Metric): nat {
    if rs == [] then 0
    else (if Clean(rs[0].artist) == a then Count(rs[0], m) else 0) + RawArtistSum(rs[1..], a, m)
  }

  /** The cleaned artists are exactly the cleaned forms of the raw names. */
  lemma CleanedArtists(rs: seq<Record>, a: string)
    ensures a in Artists(CleanRecords(rs)) <==> exists i :: 0 <= i < |rs| && Clean(rs[i].artist) == a
  {
    var cs := CleanRecords(rs);
    ArtistsIndex(cs, a);
    if exists i :: 0 <= i < |rs| && Clean(rs[i].artist) == a {
      var i :| 0 <= i < |rs| && Clean(rs[i].artist) == a;
      assert cs[i].artist == a;
    }
  }

  /**
   * An artist's total over the cleaned records gathers every raw record whose
   * name cleans to that artist, whatever its raw spelling.
   */
  lemma {:induction false} CleanedArtistSum(rs: seq<Record>, a: string, m: Metric)
    ensures ArtistSum(CleanRecords(rs), a, m) == RawArtistSum(rs, a, m)
  {
    if rs != [] {
      CleanedArtistSum(rs[1..], a, m);
      assert CleanRecords(rs)[1..] == CleanRecords(rs[1..]);
    }
  }

  /** Cleaning moves no count: column totals are the same before and after. */
  lemma {:induction false} CleanRecordsTotal(rs: seq<Record>, m: Metric)
    ensures Total(CleanRecords(rs), m) == Total(rs, m)
  {
    if rs != [] {
      assert CleanRecords(rs)[1..] == CleanRecords(rs[1..]);
      CleanRecordsTotal(rs[1..], m);
    }
  }

  // ---------------------------------------------------------------------
  // Stage 1: groupby(['Artist', 'Channel Name']).agg(sum), lines 24-27
  // ---------------------------------------------------------------------

  /** Group-key order: by artist, then by channel. */
  predicate KeyLess(x: Record, y: Record) {
    StrLess(x.artist, y.artist) || (x.artist == y.artist && StrLess(x.channel, y.channel))
  }

  /** Strictly ascending keys: the shape of a pandas groupby result. */
  predicate KeySorted(t: seq<Record>) {
    forall i, j :: 0 <= i < j < |t| ==> KeyLess(t[i], t[j])
  }

  lemma KeyLessIrreflexive(x: Record, y: Record)
    requires x.artist == y.artist && x.channel == y.channel
    ensures !KeyLess(x, y)
  {
    StrLessIrreflexive(x.artist);
    StrLessIrreflexive(x.channel);
  }

  lemma KeyLessDistinct(x: Record, y: Record)
    requires KeyLess(x, y)
    ensures x.artist != y.artist || x.channel != y.channel
  {
    StrLessIrreflexive(x.artist);
    StrLessIrreflexive(x.channel);
  }

  lemma KeyLessTransitive(x: Record, y: Record, z: Record)
    requires KeyLess(x, y) && KeyLess(y, z)
    ensures KeyLess(x, z)
  {
    if StrLess(x.artist, y.artist) && StrLess(y.artist, z.artist) {
      StrLessTransitive(x.artist, y.artist, z.artist);
    } else if x.artist == y.artist && y.artist == z.artist {
      StrLessTransitive(x.channel, y.channel, z.channel);
    }
  }

  lemma KeyLessTotal(x: Record, y: Record)
    requires x.artist != y.artist || x.channel != y.channel
    ensures KeyLess(x, y) || KeyLess(y, x)
  {
    if x.artist != y.artist {
      StrLessTotal(x.artist, y.artist);
    } else {
      StrLessTotal(x.channel, y.channel);
    }
  }

  /** Adds one record into a key-sorted table: into its key's row, or as a new row in key order. */
  function AddRecord(t: seq<Record>, r: Record): (u: seq<Record>)
    ensures |t| <= |u| <= |t| + 1
  {
    if t == [] then [r]
    else if t[0].artist == r.artist && t[0].channel == r.channel then
      [t[0].(content := t[0].content + r.content, million := t[0].million + r.million)] + t[1..]
    else if KeyLess(r, t[0]) then [r] + t
    else [t[0]] + AddRecord(t[1..], r)
  }

  /** The stage-1 table: one row per distinct (artist, channel) key with both counts summed. */
  function GroupByKey(rs: seq<Record>): (t: seq<Record>)
    ensures |t| <= |rs|
    ensures rs != [] ==> t != []
  {
    if rs == [] then [] else AddRecord(GroupByKey(rs[1..]), rs[0])
  }

  lemma {:induction false} AddRecordKeySum(t: seq<Record>, r: Record, a: string, c: string, m: Metric)
    ensures KeySum(AddRecord(t, r), a, c, m)
         == KeySum(t, a, c, m) + (if r.artist == a && r.channel == c then Count(r, m) else 0)
  {
    var u := AddRecord(t, r);
    if t == [] {
      assert u[1..] == [];
    } else if t[0].artist == r.artist && t[0].channel == r.channel {
      assert u[1..] == t[1..];
    } else if KeyLess(r, t[0]) {
      assert u[1..] == t;
    } else {
      assert u[1..] == AddRecord(t[1..], r);
      AddRecordKeySum(t[1..], r, a, c, m);
    }
  }

  lemma {:induction false} AddRecordArtistSum(t: seq<Record>, r: Record, a: string, m: Metric)
    ensures ArtistSum(AddRecord(t, r), a, m) == ArtistSum(t, a, m) + (if r.artist == a then Count(r, m) else 0)
  {
    var u := AddRecord(t, r);
    if t == [] {
      assert u[1..] == [];
    } else if t[0].artist == r.artist && t[0].channel == r.channel {
      assert u[1..] == t[1..];
    } else if KeyLess(r, t[0]) {
      assert u[1..] == t;
    } else {
      assert u[1..] == AddRecord(t[1..], r);
      AddRecordArtistSum(t[1..], r, a, m);
    }
  }

  lemma {:induction false} AddRecordTotal(t: seq<Record>, r: Record, m: Metric)
    ensures Total(AddRecord(t, r), m) == Total(t, m) + Count(r, m)
  {
    var u := AddRecord(t, r);
    if t == [] {
      assert u[1..] == [];
    } else if t[0].artist == r.artist && t[0].channel == r.channel {
      assert u[1..] == t[1..];
    } else if KeyLess(r, t[0]) {
      assert u[1..] == t;
    } else {
      assert u[1..] == AddRecord(t[1..], r);
      AddRecordTotal(t[1..], r, m);
    }
  }

  lemma {:induction false} AddRecordKeys(t: seq<Record>, r: Record)
    ensures Keys(AddRecord(t, r)) == Keys(t) + {(r.artist, r.channel)}
    ensures Artists(AddRecord(t, r)) == Artists(t) + {r.artist}
  {
    var u := AddRecord(t, r);
    if t == [] {
      assert u[1..] == [];
    } else if t[0].artist == r.artist && t[0].channel == r.channel {
      assert u[1..] == t[1..];
    } else if KeyLess(r, t[0]) {
      assert u[1..] == t;
    } else {
      assert u[1..] == AddRecord(t[1..], r);
      AddRecordKeys(t[1..], r);
    }
  }

  lemma {:induction false} AddRecordSorted(t: seq<Record>, r: Record)
    requires KeySorted(t)
    ensures KeySorted(AddRecord(t, r))
  {
    var u := AddRecord(t, r);
    if t == [] {
    } else if t[0].artist == r.artist && t[0].channel == r.channel {
      assert forall j :: 0 < j < |u| ==> u[j] == t[j];
    } else if KeyLess(r, t[0]) {
      forall j | 1 <= j < |t|
        ensures KeyLess(r, t[j])
      {
        KeyLessTransitive(r, t[0], t[j]);
      }
    } else {
      KeyLessTotal(r, t[0]);
      var v := AddRecord(t[1..], r);
      AddRecordSorted(t[1..], r);
      AddRecordKeys(t[1..], r);
      forall j | 0 <= j < |v|
        ensures KeyLess(t[0], v[j])
      {
        KeysIndex(v, v[j].artist, v[j].channel);
        assert (v[j].artist, v[j].channel) in Keys(v);
        if (v[j].artist, v[j].channel) in Keys(t[1..]) {
          KeysIndex(t[1..], v[j].artist, v[j].channel);
          var k :| 0 <= k < |t[1..]| && t[1..][k].artist == v[j].artist && t[1..][k].channel == v[j].channel;
          assert KeyLess(t[0], t[k + 1]);
        }
      }
      assert u == [t[0]] + v;
    }
  }

  /** Stage 1 keeps each key's sums: the row sums equal the input sums, key by key. */
  lemma {:induction false} GroupByKeySums(rs: seq<Record>, a: string, c: string, m: Metric)
    ensures KeySum(GroupByKey(rs), a, c, m) == KeySum(rs, a, c, m)
    ensures ArtistSum(GroupByKey(rs), a, m) == ArtistSum(rs, a, m)
    ensures Total(GroupByKey(rs), m) == Total(rs, m)
  {
    if rs != [] {
      GroupByKeySums(rs[1..], a, c, m);
      AddRecordKeySum(GroupByKey(rs[1..]), rs[0], a, c, m);
      AddRecordArtistSum(GroupByKey(rs[1..]), rs[0], a, m);
      AddRecordTotal(GroupByKey(rs[1..]), rs[0], m);
    }
  }

  /** Stage 1 is key-sorted and has exactly the input's keys and artists. */
  lemma {:induction false} GroupByKeyShape(rs: seq<Record>)
    ensures KeySorted(GroupByKey(rs))
    ensures Keys(GroupByKey(rs)) == Keys(rs)
    ensures Artists(GroupByKey(rs)) == Artists(rs)
  {
    if rs != [] {
      GroupByKeyShape(rs[1..]);
      AddRecordSorted(GroupByKey(rs[1..]), rs[0]);
      AddRecordKeys(GroupByKey(rs[1..]), rs[0]);
    }
  }

  /** In a key-sorted table each key has one row, so a row's count is its key's sum. */
  lemma {:induction false} RowIsKeySum(t: seq<Record>, i: int, m: Metric)
    requires KeySorted(t)
    requires 0 <= i < |t|
    ensures Count(t[i], m) == KeySum(t, t[i].artist, t[i].channel, m)
  {
    var rest := t[1..];
    if i == 0 {
      KeysIndex(rest, t[0].artist, t[0].channel);
      if (t[0].artist, t[0].channel) in Keys(rest) {
        var k :| 0 <= k < |rest| && rest[k].artist == t[0].artist && rest[k].channel == t[0].channel;
        assert KeyLess(t[0], t[k + 1]);
        KeyLessIrreflexive(t[0], t[k + 1]);
      }
      KeySumAbsent(rest, t[0].artist, t[0].channel, m);
    } else {
      assert KeyLess(t[0], t[i]);
      KeyLessDistinct(t[0], t[i]);
      assert rest[i - 1] == t[i];
      RowIsKeySum(rest, i - 1, m);
    }
  }

  /**
   * The stage-1 table: its rows are exactly the distinct keys of the input and
   * each row carries the input sums of its key.
   */
  lemma GroupByKeySpec(rs: seq<Record>, i: int, m: Metric)
    requires 0 <= i < |GroupByKey(rs)|
    ensures (GroupByKey(rs)[i].artist, GroupByKey(rs)[i].channel) in Keys(rs)
    ensures Count(GroupByKey(rs)[i], m) == KeySum(rs, GroupByKey(rs)[i].artist, GroupByKey(rs)[i].channel, m)
  {
    var t := GroupByKey(rs);
    GroupByKeyShape(rs);
    KeysIndex(t, t[i].artist, t[i].channel);
    RowIsKeySum(t, i, m);
    GroupByKeySums(rs, t[i].artist, t[i].channel, m);
  }

  // ---------------------------------------------------------------------
  // Stage 2: groupby('Artist') with a channel dictionary, lines 29-33 and 39-43
  // ---------------------------------------------------------------------

  /** One entry of a channel dictionary. */
  datatype Share = Share(channel: string, count: nat)

  /** A per-artist row: both totals and the dictionary of one column. */
  datatype ArtistRow = ArtistRow(artist: string, content: nat, million: nat, shares: seq<Share>)

  function RowCount(g: ArtistRow, m: Metric): nat {
    match m
    case Content => g.content
    case Million => g.million
  }

  /** sum(d.values()) */
  function ShareSum(sh: seq<Share>): nat {
    if sh == [] then 0 else sh[0].count + ShareSum(sh[1..])
  }

  /** set(d.keys()) */
  function ShareChannels(sh: seq<Share>): set<string> {
    if sh == [] then {} else {sh[0].channel} + ShareChannels(sh[1..])
  }

  predicate ChannelsAscending(sh: seq<Share>) {
    forall i, j :: 0 <= i < j < |sh| ==> StrLess(sh[i].channel, sh[j].channel)
  }

  predicate ArtistsAscending(g: seq<ArtistRow>) {
    forall i, j :: 0 <= i < j < |g| ==> StrLess(g[i].artist, g[j].artist)
  }

  /**
   * Groups a key-sorted stage-1 table by artist: consecutive rows of one
   * artist become one row whose totals are summed and whose dictionary maps
   * each channel to the column `m`.
   */
  function GroupByArtist(t: seq<Record>, m: Metric): (g: seq<ArtistRow>)
    ensures |g| <= |t|
    ensures t != [] ==> g != [] && g[0].artist == t[0].artist
  {
    if t == [] then []
    else
      var rest := GroupByArtist(t[1..], m);
      var s := Share(t[0].channel, Count(t[0], m));
      if rest != [] && rest[0].artist == t[0].artist then
        [ArtistRow(t[0].artist, t[0].content + rest[0].content, t[0].million + rest[0].million, [s] + rest[0].shares)]
          + rest[1..]
      else
        [ArtistRow(t[0].artist, t[0].content, t[0].million, [s])] + rest
  }

  function GroupTotal(g: seq<ArtistRow>, m: Metric): nat {
    if g == [] then 0 else RowCount(g[0], m) + GroupTotal(g[1..], m)
  }

  function GroupArtistSum(g: seq<ArtistRow>, a: string, m: Metric): nat {
    if g == [] then 0
    else (if g[0].artist == a then RowCount(g[0], m) else 0) + GroupArtistSum(g[1..], a, m)
  }

  function GroupArtists(g: seq<ArtistRow>): set<string> {
    if g == [] then {} else {g[0].artist} + GroupArtists(g[1..])
  }

  function GroupChannels(g: seq<ArtistRow>, a: string): set<string> {
    if g == [] then {}
    else (if g[0].artist == a then ShareChannels(g[0].shares) else {}) + GroupChannels(g[1..], a)
  }

  /** Each row's dictionary sums to that row's total of the dictionary's column. */
  lemma {:induction false} GroupShareSums(t: seq<Record>, m: Metric, i: int)
    requires 0 <= i < |GroupByArtist(t, m)|
    ensures ShareSum(GroupByArtist(t, m)[i].shares) == RowCount(GroupByArtist(t, m)[i], m)
  {
    var rest := GroupByArtist(t[1..], m);
    if i > 0 {
      var j := GroupLaterRow(t, m, i);
      GroupShareSums(t[1..], m, j);
    } else if rest != [] && rest[0].artist == t[0].artist {
      GroupShareSums(t[1..], m, 0);
      assert ([Share(t[0].channel, Count(t[0], m))] + rest[0].shares)[1..] == rest[0].shares;
    }
  }

  /** A group row after the first is a row of the tail's grouping. */
  lemma GroupLaterRow(t: seq<Record>, m: Metric, i: int) returns (j: int)
    requires 0 < i < |GroupByArtist(t, m)|
    ensures 0 <= j < |GroupByArtist(t[1..], m)|
    ensures GroupByArtist(t, m)[i] == GroupByArtist(t[1..], m)[j]
  {
    var g := GroupByArtist(t, m);
    var rest := GroupByArtist(t[1..], m);
    if rest != [] && rest[0].artist == t[0].artist {
      assert g[1..] == rest[1..];
      j := i;
      assert g[i] == g[1..][i - 1] == rest[1..][i - 1];
    } else {
      assert g[1..] == rest;
      j := i - 1;
      assert g[i] == g[1..][i - 1];
    }
  }

  /** Grouping by artist moves no count between artists and loses no artist or channel. */
  lemma GroupByArtistSums(t: seq<Record>, m: Metric, a: string, m': Metric)
    ensures GroupTotal(GroupByArtist(t, m), m') == Total(t, m')
    ensures GroupArtistSum(GroupByArtist(t, m), a, m') == ArtistSum(t, a, m')
    ensures GroupArtists(GroupByArtist(t, m)) == Artists(t)
    ensures GroupChannels(GroupByArtist(t, m), a) == ChannelsOf(t, a)
  {
    GroupByArtistCounts(t, m, a, m');
    GroupByArtistKeys(t, m, a);
  }

  lemma {:induction false} GroupByArtistCounts(t: seq<Record>, m: Metric, a: string, m': Metric)
    ensures GroupTotal(GroupByArtist(t, m), m') == Total(t, m')
    ensures GroupArtistSum(GroupByArtist(t, m), a, m') == ArtistSum(t, a, m')
  {
    if t != [] {
      var g := GroupByArtist(t, m);
      var rest := GroupByArtist(t[1..], m);
      GroupByArtistCounts(t[1..], m, a, m');
      if rest != [] && rest[0].artist == t[0].artist {
        assert g[1..] == rest[1..];
        assert RowCount(g[0], m') == Count(t[0], m') + RowCount(rest[0], m');
      } else {
        assert g[1..] == rest;
      }
    }
  }

  lemma {:induction false} GroupByArtistKeys(t: seq<Record>, m: Metric, a: string)
    ensures GroupArtists(GroupByArtist(t, m)) == Artists(t)
    ensures GroupChannels(GroupByArtist(t, m), a) == ChannelsOf(t, a)
  {
    if t != [] {
      var g := GroupByArtist(t, m);
      var rest := GroupByArtist(t[1..], m);
      GroupByArtistKeys(t[1..], m, a);
      if rest != [] && rest[0].artist == t[0].artist {
        assert g[1..] == rest[1..];
        assert ShareChannels(g[0].shares) == {t[0].channel} + ShareChannels(rest[0].shares) by {
          assert g[0].shares[1..] == rest[0].shares;
        }
      } else {
        assert g[1..] == rest;
        assert ShareChannels(g[0].shares) == {t[0].channel} by {
          assert g[0].shares[1..] == [];
        }
      }
    }
  }

  /** A key-sorted table groups into rows of strictly ascending artist. */
  lemma {:induction false} GroupByArtistAscending(t: seq<Record>, m: Metric)
    requires KeySorted(t)
    ensures ArtistsAscending(GroupByArtist(t, m))
  {
    if t != [] {
      var g := GroupByArtist(t, m);
      var rest := GroupByArtist(t[1..], m);
      GroupByArtistAscending(t[1..], m);
      if rest != [] && rest[0].artist == t[0].artist {
        assert forall j :: 0 < j < |g| ==> g[j] == rest[j];
      } else if rest != [] {
        assert rest[0].artist == t[1].artist;
        assert KeyLess(t[0], t[1]);
        forall j | 0 <= j < |rest|
          ensures StrLess(t[0].artist, rest[j].artist)
        {
          if j > 0 {
            StrLessTransitive(t[0].artist, rest[0].artist, rest[j].artist);
          }
        }
        assert forall j :: 0 < j < |g| ==> g[j] == rest[j - 1];
      }
    }
  }

  /** Within a key-sorted table, rows after the first that share its artist have larger channels. */
  lemma LaterChannelsAbove(t: seq<Record>, c: string)
    requires KeySorted(t) && t != []
    requires c in ChannelsOf(t[1..], t[0].artist)
    ensures StrLess(t[0].channel, c)
  {
    ChannelsOfKeys(t[1..], t[0].artist, c);
    KeysIndex(t[1..], t[0].artist, c);
    var k :| 0 <= k < |t[1..]| && t[1..][k].artist == t[0].artist && t[1..][k].channel == c;
    assert KeyLess(t[0], t[k + 1]);
    StrLessIrreflexive(t[0].artist);
  }

  /**
   * Over a key-sorted table, each dictionary lists its channels in ascending
   * order and maps each channel to the key sum of the dictionary's column.
   */
  lemma {:induction false} GroupByArtistShares(t: seq<Record>, m: Metric, i: int)
    requires KeySorted(t)
    requires 0 <= i < |GroupByArtist(t, m)|
    ensures ChannelsAscending(GroupByArtist(t, m)[i].shares)
    ensures forall k :: 0 <= k < |GroupByArtist(t, m)[i].shares| ==>
              GroupByArtist(t, m)[i].shares[k].count
              == KeySum(t, GroupByArtist(t, m)[i].artist, GroupByArtist(t, m)[i].shares[k].channel, m)
  {
    var g := GroupByArtist(t, m);
    var rest := GroupByArtist(t[1..], m);
    if i > 0 {
      // A later group: a group of the tail whose artist lies above the head's.
      var j := GroupLaterRow(t, m, i);
      GroupByArtistShares(t[1..], m, j);
      GroupByArtistAscending(t, m);
      assert StrLess(g[0].artist, g[i].artist);
      StrLessIrreflexive(g[i].artist);
      ExactSharesTail(t, g[i], m);
    } else if rest != [] && rest[0].artist == t[0].artist {
      // The head row joins the first group of the tail.
      GroupByArtistShares(t[1..], m, 0);
      GroupByArtistSums(t[1..], m, t[0].artist, m);
      assert ShareChannels(rest[0].shares) <= GroupChannels(rest, t[0].artist);
      PrependShare(t, m, rest[0].shares);
      assert g[0].shares == [Share(t[0].channel, Count(t[0], m))] + rest[0].shares;
    } else {
      // The head row forms a group of its own.
      RowIsKeySum(t, 0, m);
    }
  }

  /** A dictionary exact over the tail stays exact once a row of another artist is put in front. */
  lemma ExactSharesTail(t: seq<Record>, r: ArtistRow, m: Metric)
    requires t != [] && r.artist != t[0].artist
    requires forall k :: 0 <= k < |r.shares| ==> r.shares[k].count == KeySum(t[1..], r.artist, r.shares[k].channel, m)
    ensures forall k :: 0 <= k < |r.shares| ==> r.shares[k].count == KeySum(t, r.artist, r.shares[k].channel, m)
  {
  }

  /**
   * The head row's share put in front of a dictionary of the tail's channels
   * for the head's artist keeps it ascending and exact.
   */
  lemma PrependShare(t: seq<Record>, m: Metric, sh: seq<Share>)
    requires KeySorted(t) && t != []
    requires ChannelsAscending(sh)
    requires ShareChannels(sh) <= ChannelsOf(t[1..], t[0].artist)
    requires forall k :: 0 <= k < |sh| ==> sh[k].count == KeySum(t[1..], t[0].artist, sh[k].channel, m)
    ensures ChannelsAscending([Share(t[0].channel, Count(t[0], m))] + sh)
    ensures forall k :: 0 <= k < |[Share(t[0].channel, Count(t[0], m))] + sh| ==>
              ([Share(t[0].channel, Count(t[0], m))] + sh)[k].count
              == KeySum(t, t[0].artist, ([Share(t[0].channel, Count(t[0], m))] + sh)[k].channel, m)
  {
    var a := t[0].artist;
    var all := [Share(t[0].channel, Count(t[0], m))] + sh;
    RowIsKeySum(t, 0, m);
    forall k | 1 <= k < |all|
      ensures StrLess(t[0].channel, all[k].channel)
      ensures all[k].count == KeySum(t, a, all[k].channel, m)
    {
      var c := all[k].channel;
      assert all[k] == sh[k - 1];
      ShareChannelsIndex(sh, k - 1);
      LaterChannelsAbove(t, c);
      StrLessIrreflexive(c);
    }
  }

  lemma {:induction false} ShareChannelsIndex(sh: seq<Share>, k: int)
    requires 0 <= k < |sh|
    ensures sh[k].channel in ShareChannels(sh)
  {
    if k > 0 {
      assert sh[1..][k - 1] == sh[k];
      ShareChannelsIndex(sh[1..], k - 1);
    }
  }

  /** When artists are distinct, an artist's row holds all of that artist's group sums and channels. */
  lemma {:induction false} AscendingRowHoldsArtist(g: seq<ArtistRow>, i: int, m: Metric)
    requires ArtistsAscending(g)
    requires 0 <= i < |g|
    ensures GroupArtistSum(g, g[i].artist, m) == RowCount(g[i], m)
    ensures GroupChannels(g, g[i].artist) == ShareChannels(g[i].shares)
  {
    StrLessIrreflexive(g[i].artist);
    if i == 0 {
      AbsentArtist(g[1..], g[0].artist, m);
    } else {
      assert g[1..][i - 1] == g[i];
      AscendingRowHoldsArtist(g[1..], i - 1, m);
    }
  }

  lemma {:induction false} AbsentArtist(g: seq<ArtistRow>, a: string, m: Metric)
    requires forall j :: 0 <= j < |g| ==> g[j].artist != a
    ensures GroupArtistSum(g, a, m) == 0
    ensures GroupChannels(g, a) == {}
  {
    if g != [] {
      AbsentArtist(g[1..], a, m);
    }
  }

  /** Grouping the same table for either dictionary gives the same artists and totals. */
  lemma {:induction false} GroupByArtistSameFrame(t: seq<Record>)
    ensures |GroupByArtist(t, Content)| == |GroupByArtist(t, Million)|
    ensures forall i :: 0 <= i < |GroupByArtist(t, Content)| ==>
              GroupByArtist(t, Content)[i].artist == GroupByArtist(t, Million)[i].artist &&
              GroupByArtist(t, Content)[i].content == GroupByArtist(t, Million)[i].content &&
              GroupByArtist(t, Content)[i].million == GroupByArtist(t, Million)[i].million
  {
    if t != [] {
      var gc, gm := GroupByArtist(t, Content), GroupByArtist(t, Million);
      var rc, rm := GroupByArtist(t[1..], Content), GroupByArtist(t[1..], Million);
      GroupByArtistSameFrame(t[1..]);
      if rc != [] && rc[0].artist == t[0].artist {
        assert gc[1..] == rc[1..] && gm[1..] == rm[1..];
      } else {
        assert gc[1..] == rc && gm[1..] == rm;
      }
      forall i | 0 < i < |gc|
        ensures gc[i] == gc[1..][i - 1] && gm[i] == gm[1..][i - 1]
      {
      }
    }
  }

  // ---------------------------------------------------------------------
  // The left merge on 'Artist', line 50
  // ---------------------------------------------------------------------

  /** A merged per-artist row: both totals and both channel dictionaries. */
  datatype Summary = Summary(artist: string, content: nat, million: nat,
                             contentShares: seq<Share>, millionShares: seq<Share>)

  function SummaryCount(s: Summary, m: Metric): nat {
    match m
    case Content => s.content
    case Million => s.million
  }

  function SummaryShares(s: Summary, m: Metric): seq<Share> {
    match m
    case Content => s.contentShares
    case Million => s.millionShares
  }

  /** The dictionary of the first right-hand row for `a`; [] stands for the NaN of an unmatched left row. */
  function SharesFor(right: seq<ArtistRow>, a: string): seq<Share> {
    if right == [] then []
    else if right[0].artist == a then right[0].shares
    else SharesFor(right[1..], a)
  }

  /** merge(how='left'): every left row, in left order, with the right-hand dictionary of its artist. */
  function LeftMerge(left: seq<ArtistRow>, right: seq<ArtistRow>): (s: seq<Summary>)
    ensures |s| == |left|
    ensures forall i :: 0 <= i < |s| ==>
              s[i].artist == left[i].artist && s[i].content == left[i].content && s[i].million == left[i].million
  {
    seq(|left|, i requires 0 <= i < |left| =>
      Summary(left[i].artist, left[i].content, left[i].million, left[i].shares, SharesFor(right, left[i].artist)))
  }

  lemma {:induction false} SharesForAt(right: seq<ArtistRow>, i: int)
    requires ArtistsAscending(right)
    requires 0 <= i < |right|
    ensures SharesFor(right, right[i].artist) == right[i].shares
  {
    if i > 0 {
      StrLessIrreflexive(right[i].artist);
      assert StrLess(right[0].artist, right[i].artist);
      assert right[1..][i - 1] == right[i];
      SharesForAt(right[1..], i - 1);
    }
  }

  /** With unique, aligned artists the merge is one-to-one: row i meets right-hand row i. */
  lemma MergeOneToOne(left: seq<ArtistRow>, right: seq<ArtistRow>)
    requires |left| == |right|
    requires ArtistsAscending(right)
    requires forall i :: 0 <= i < |left| ==> left[i].artist == right[i].artist
    ensures |LeftMerge(left, right)| == |left|
    ensures forall i :: 0 <= i < |left| ==>
              LeftMerge(left, right)[i]
              == Summary(left[i].artist, left[i].content, left[i].million, left[i].shares, right[i].shares)
  {
    forall i | 0 <= i < |left|
      ensures SharesFor(right, left[i].artist) == right[i].shares
    {
      SharesForAt(right, i);
    }
  }

  // ---------------------------------------------------------------------
  // The whole table: lines 19-50
  // ---------------------------------------------------------------------

  /** The stage-1 table of the cleaned input. */
  function Stage1(rs: seq<Record>): seq<Record> {
    GroupByKey(CleanRecords(rs))
  }

  /** merged_df: the per-artist table with both totals and both channel dictionaries. */
  function Summaries(rs: seq<Record>): (s: seq<Summary>)
    ensures |s| <= |rs|
    ensures rs != [] ==> s != []
  {
    LeftMerge(GroupByArtist(Stage1(rs), Content), GroupByArtist(Stage1(rs), Million))
  }

  predicate SummariesAscending(s: seq<Summary>) {
    forall i, j :: 0 <= i < j < |s| ==> StrLess(s[i].artist, s[j].artist)
  }

  function SummaryTotal(s: seq<Summary>, m: Metric): nat {
    if s == [] then 0 else SummaryCount(s[0], m) + SummaryTotal(s[1..], m)
  }

  /** The merged table is the per-artist grouping carrying both dictionaries, row for row. */
  lemma SummariesFrame(rs: seq<Record>, m: Metric)
    ensures |Summaries(rs)| == |GroupByArtist(Stage1(rs), m)|
    ensures forall i :: 0 <= i < |Summaries(rs)| ==>
              && Summaries(rs)[i].artist == GroupByArtist(Stage1(rs), m)[i].artist
              && SummaryCount(Summaries(rs)[i], Content) == RowCount(GroupByArtist(Stage1(rs), m)[i], Content)
              && SummaryCount(Summaries(rs)[i], Million) == RowCount(GroupByArtist(Stage1(rs), m)[i], Million)
              && SummaryShares(Summaries(rs)[i], m) == GroupByArtist(Stage1(rs), m)[i].shares
  {
    var t := Stage1(rs);
    GroupByKeyShape(CleanRecords(rs));
    GroupByArtistAscending(t, Million);
    GroupByArtistSameFrame(t);
    MergeOneToOne(GroupByArtist(t, Content), GroupByArtist(t, Million));
  }

  /**
   * One row of a per-artist grouping of a key-sorted table: each total is the
   * artist's sum, the dictionary sums to its column's total, its channels are
   * exactly the artist's channels in ascending order, and each entry is its
   * key's sum.
   */
  lemma GroupRow(t: seq<Record>, m: Metric, i: int, m': Metric)
    requires KeySorted(t)
    requires 0 <= i < |GroupByArtist(t, m)|
    ensures RowCount(GroupByArtist(t, m)[i], m') == ArtistSum(t, GroupByArtist(t, m)[i].artist, m')
    ensures ShareSum(GroupByArtist(t, m)[i].shares) == RowCount(GroupByArtist(t, m)[i], m)
    ensures ShareChannels(GroupByArtist(t, m)[i].shares) == ChannelsOf(t, GroupByArtist(t, m)[i].artist)
    ensures ChannelsAscending(GroupByArtist(t, m)[i].shares)
    ensures forall k :: 0 <= k < |GroupByArtist(t, m)[i].shares| ==>
              GroupByArtist(t, m)[i].shares[k].count
              == KeySum(t, GroupByArtist(t, m)[i].artist, GroupByArtist(t, m)[i].shares[k].channel, m)
  {
    var g := GroupByArtist(t, m);
    GroupByArtistAscending(t, m);
    AscendingRowHoldsArtist(g, i, m');
    GroupByArtistSums(t, m, g[i].artist, m');
    GroupShareSums(t, m, i);
    GroupByArtistShares(t, m, i);
  }

  /** The per-artist table lists each cleaned artist once, in ascending order. */
  lemma SummariesArtists(rs: seq<Record>, a: string)
    ensures SummariesAscending(Summaries(rs))
    ensures a in Artists(CleanRecords(rs)) <==> exists i :: 0 <= i < |Summaries(rs)| && Summaries(rs)[i].artist == a
  {
    var cs := CleanRecords(rs);
    var t := Stage1(rs);
    var g := GroupByArtist(t, Content);
    SummariesFrame(rs, Content);
    GroupByKeyShape(cs);
    GroupByArtistAscending(t, Content);
    GroupByArtistSums(t, Content, a, Content);
    GroupArtistsIndex(g, a);
  }

  lemma {:induction false} GroupArtistsIndex(g: seq<ArtistRow>, a: string)
    ensures a in GroupArtists(g) <==> exists i :: 0 <= i < |g| && g[i].artist == a
  {
    if g != [] {
      GroupArtistsIndex(g[1..], a);
      if a in GroupArtists(g[1..]) {
        var i :| 0 <= i < |g[1..]| && g[1..][i].artist == a;
        assert g[i + 1] == g[1..][i];
      }
      if exists i :: 0 <= i < |g| && g[i].artist == a {
        var i :| 0 <= i < |g| && g[i].artist == a;
        if i > 0 {
          assert g[1..][i - 1] == g[i];
        }
      }
    }
  }

  /** Stage 1 keeps each artist's channels. */
  lemma Stage1Channels(rs: seq<Record>, a: string)
    ensures ChannelsOf(Stage1(rs), a) == ChannelsOf(CleanRecords(rs), a)
  {
    GroupByKeyShape(CleanRecords(rs));
    forall c
      ensures c in ChannelsOf(Stage1(rs), a) <==> c in ChannelsOf(CleanRecords(rs), a)
    {
      ChannelsOfKeys(Stage1(rs), a, c);
      ChannelsOfKeys(CleanRecords(rs), a, c);
    }
  }

  /**
   * One artist's row: each total is the sum over that artist's cleaned input
   * records, each dictionary sums to its total, both dictionaries have exactly
   * the artist's channels (ascending), and each entry is the sum over the
   * records of that (artist, channel) key.
   */
  lemma SummaryRow(rs: seq<Record>, i: int, m: Metric)
    requires 0 <= i < |Summaries(rs)|
    ensures SummaryCount(Summaries(rs)[i], m) == ArtistSum(CleanRecords(rs), Summaries(rs)[i].artist, m)
    ensures ShareSum(SummaryShares(Summaries(rs)[i], m)) == SummaryCount(Summaries(rs)[i], m)
    ensures ShareChannels(SummaryShares(Summaries(rs)[i], m)) == ChannelsOf(CleanRecords(rs), Summaries(rs)[i].artist)
    ensures ChannelsAscending(SummaryShares(Summaries(rs)[i], m))
    ensures forall k :: 0 <= k < |SummaryShares(Summaries(rs)[i], m)| ==>
              SummaryShares(Summaries(rs)[i], m)[k].count
              == KeySum(CleanRecords(rs), Summaries(rs)[i].artist, SummaryShares(Summaries(rs)[i], m)[k].channel, m)
  {
    var cs := CleanRecords(rs);
    var t := Stage1(rs);
    var g := GroupByArtist(t, m);
    var s := Summaries(rs)[i];
    SummariesFrame(rs, m);
    assert s.artist == g[i].artist && SummaryCount(s, m) == RowCount(g[i], m) && SummaryShares(s, m) == g[i].shares;
    GroupByKeyShape(cs);
    GroupRow(t, m, i, m);
    GroupByKeySums(cs, s.artist, "", m);
    Stage1Channels(rs, s.artist);
    forall k | 0 <= k < |g[i].shares|
      ensures g[i].shares[k].count == KeySum(cs, s.artist, g[i].shares[k].channel, m)
    {
      GroupByKeySums(cs, s.artist, g[i].shares[k].channel, m);
    }
  }

  /** Conservation: the per-artist totals add up to the column total of the raw input. */
  lemma SummariesConservation(rs: seq<Record>, m: Metric)
    ensures SummaryTotal(Summaries(rs), m) == Total(rs, m)
  {
    var cs := CleanRecords(rs);
    var t := Stage1(rs);
    var g := GroupByArtist(t, m);
    SummariesFrame(rs, m);
    SummaryTotalIsGroupTotal(Summaries(rs), g, m);
    GroupByArtistSums(t, m, "", m);
    GroupByKeySums(cs, "", "", m);
    CleanRecordsTotal(rs, m);
  }

  lemma {:induction false} SummaryTotalIsGroupTotal(s: seq<Summary>, g: seq<ArtistRow>, m: Metric)
    requires |s| == |g|
    requires forall i :: 0 <= i < |s| ==> SummaryCount(s[i], m) == RowCount(g[i], m)
    ensures SummaryTotal(s, m) == GroupTotal(g, m)
  {
    if s != [] {
      SummaryTotalIsGroupTotal(s[1..], g[1..], m);
    }
  }
}
