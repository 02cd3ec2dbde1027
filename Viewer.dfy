/**
 * The artist viewer over a returned top list (lines 92-108 and 130-145):
 * the selectbox offers None followed by the capitalised, de-duplicated
 * artist names; a chosen name is lower-cased and matched against the stored
 * cleaned names, and a match is shown with the sum of its dictionary.
 */
module Viewer {
  import opened Text
  import opened Aggregate
  import opened TopList

  datatype Option<T> = None | Some(value: T)

  /** What the page shows for a selection. */
  datatype View =
    | AskArtist                                              // "Please select an artist."
    | Blank                                                  // an empty name: nothing is looked up
    | Chart(title: string, total: nat, shares: seq<Share>)  // the total line and the pie chart
    | NoData                                                 // "No data available for the selected artist."

  /** Series.unique(): the first occurrence of each name, in order. */
  function Unique(names: seq<string>): (u: seq<string>)
    ensures forall x :: x in u <==> x in names
    ensures forall i, j :: 0 <= i < j < |u| ==> u[i] != u[j]
  {
    if names == [] then []
    else
      var u := Unique(names[..|names| - 1]);
      var last := names[|names| - 1];
      assert names == names[..|names| - 1] + [last];
      if last in u then u else u + [last]
  }

  /** The artist choices after the None sentinel: capitalised stored names without repeats. */
  function DisplayNames(l: seq<TopEntry>): (names: seq<string>)
    ensures forall x :: x in names <==> exists i :: 0 <= i < |l| && Capitalize(l[i].artist) == x
    ensures forall i, j :: 0 <= i < j < |names| ==> names[i] != names[j]
  {
    var caps := seq(|l|, i requires 0 <= i < |l| => Capitalize(l[i].artist));
    assert forall x :: x in caps <==> exists i :: 0 <= i < |l| && Capitalize(l[i].artist) == x by {
      forall x | x in caps
        ensures exists i :: 0 <= i < |l| && Capitalize(l[i].artist) == x
      {
        var i :| 0 <= i < |caps| && caps[i] == x;
        assert Capitalize(l[i].artist) == x;
      }
      forall x | exists i :: 0 <= i < |l| && Capitalize(l[i].artist) == x
        ensures x in caps
      {
        var i :| 0 <= i < |l| && Capitalize(l[i].artist) == x;
        assert caps[i] == x;
      }
    }
    Unique(caps)
  }

  /** Each name wrapped as a selectable option, in order. */
  function Somes(names: seq<string>): (o: seq<Option<string>>)
    ensures |o| == |names|
    ensures None !in o
    ensures forall x :: Some(x) in o <==> x in names
  {
    if names == [] then [] else [Some(names[0])] + Somes(names[1..])
  }

  /** The full option list of the artist selectbox. */
  function ArtistOptions(l: seq<TopEntry>): (o: seq<Option<string>>)
    ensures |o| == |DisplayNames(l)| + 1 && o[0] == None
    ensures None !in o[1..]
    ensures forall x :: Some(x) in o <==> x in DisplayNames(l)
  {
    var tail := Somes(DisplayNames(l));
    assert ([None] + tail)[1..] == tail;
    [None] + tail
  }

  /** selected_df[selected_df['Artist'] == name].iloc[0]: the first entry stored under exactly `name`. */
  function FindExact(l: seq<TopEntry>, name: string): (r: Option<TopEntry>)
    ensures r.Some? <==> Listed(l, name)
    ensures r.Some? ==> r.value.artist == name && r.value in l
  {
    if l == [] then None
    else if l[0].artist == name then Some(l[0])
    else
      var r := FindExact(l[1..], name);
      assert Listed(l, name) ==> Listed(l[1..], name) by {
        if Listed(l, name) {
          var i :| 0 <= i < |l| && l[i].artist == name;
          assert l[1..][i - 1].artist == name;
        }
      }
      assert Listed(l[1..], name) ==> Listed(l, name) by {
        if Listed(l[1..], name) {
          var i :| 0 <= i < |l[1..]| && l[1..][i].artist == name;
          assert l[i + 1].artist == name;
        }
      }
      r
  }

  /** The page for a selection, as the code does it: an exact match of the lower-cased choice. */
  function ShowAsWritten(l: seq<TopEntry>, sel: Option<string>): (v: View)
    ensures sel == None ==> v == AskArtist
    ensures sel == Some([]) ==> v == Blank
    ensures v.Chart? <==> sel.Some? && sel.value != [] && Listed(l, LowerStr(sel.value))
    ensures sel.Some? && sel.value != [] && !v.Chart? ==> v == NoData
    ensures v.Chart? ==> v.total == ShareSum(v.shares)
                         && exists i :: 0 <= i < |l| && l[i].artist == LowerStr(sel.value) && l[i].shares == v.shares
  {
    match sel
    case None => AskArtist
    case Some(name) =>
      if name == [] then Blank
      else
        var key := LowerStr(name);
        match FindExact(l, key)
        case Some(e) => Chart(Capitalize(key), ShareSum(e.shares), e.shares)
        case None => NoData
  }

  /** No two stored names differ only by case. */
  predicate CaseDistinct(l: seq<TopEntry>) {
    forall i, j :: 0 <= i < j < |l| ==> LowerStr(l[i].artist) != LowerStr(l[j].artist)
  }

  lemma LowerStrIdempotent(s: string)
    ensures LowerStr(LowerStr(s)) == LowerStr(s)
  {
  }

  /** Every stored name is offered, capitalised. */
  lemma DisplayNamesOffer(l: seq<TopEntry>, i: int)
    requires 0 <= i < |l|
    ensures Capitalize(l[i].artist) in DisplayNames(l)
    ensures Some(Capitalize(l[i].artist)) in ArtistOptions(l)
  {
    var x := Capitalize(l[i].artist);
    assert 0 <= i < |l| && Capitalize(l[i].artist) == x;
    assert x in DisplayNames(l);
  }

  /**
   * Choosing a listed artist from the selectbox shows a chart exactly when
   * some stored name equals that artist's lower-cased name.
   */
  lemma ShowAsWrittenChoice(l: seq<TopEntry>, i: int)
    requires 0 <= i < |l| && l[i].artist != []
    ensures ShowAsWritten(l, Some(Capitalize(l[i].artist))).Chart? <==> Listed(l, LowerStr(l[i].artist))
  {
    LowerCapitalize(l[i].artist);
  }

  /**
   * When no two stored names differ only by case, a listed artist is found
   * exactly when its stored name has no upper-case letter, and then its own
   * dictionary is the one charted.
   */
  lemma ShowAsWrittenOwnName(l: seq<TopEntry>, i: int)
    requires CaseDistinct(l)
    requires 0 <= i < |l| && l[i].artist != []
    ensures ShowAsWritten(l, Some(Capitalize(l[i].artist))).Chart?
            <==> forall k :: 0 <= k < |l[i].artist| ==> !IsUpper(l[i].artist[k])
    ensures ShowAsWritten(l, Some(Capitalize(l[i].artist))).Chart? ==>
              ShowAsWritten(l, Some(Capitalize(l[i].artist))).shares == l[i].shares
  {
    var a := l[i].artist;
    LowerCapitalize(a);
    LowerStrFixed(a);
    LowerStrIdempotent(a);
    if Listed(l, LowerStr(a)) {
      var j :| 0 <= j < |l| && l[j].artist == LowerStr(a);
      assert LowerStr(l[j].artist) == LowerStr(a);
      assert j == i;
    }
  }

  /** An artist name with an upper-case letter is offered but never found. */
  lemma UppercaseArtistNotFound()
    ensures var l := [TopEntry("Drake", [Share("C1", 5)])];
            && "Drake" in DisplayNames(l)
            && ShowAsWritten(l, Some("Drake")) == NoData
  {
    var l := [TopEntry("Drake", [Share("C1", 5)])];
    var low := LowerStr("Drake");
    assert low[0] == 'd';
    assert Capitalize("Drake") == "Drake" by {
      assert LowerStr("rake") == "rake";
    }
    DisplayNamesOffer(l, 0);
    assert low != "Drake";
    assert !Listed(l, low);
  }

  // ---------------------------------------------------------------------
  // The evidently intended lookup: case-insensitive
  // ---------------------------------------------------------------------

  /** The first entry whose stored name lower-cases to `key`. */
  function FindFolded(l: seq<TopEntry>, key: string): (r: Option<TopEntry>)
    ensures r.Some? <==> exists i :: 0 <= i < |l| && LowerStr(l[i].artist) == key
    ensures r.Some? ==> LowerStr(r.value.artist) == key && r.value in l
  {
    if l == [] then None
    else if LowerStr(l[0].artist) == key then Some(l[0])
    else
      var r := FindFolded(l[1..], key);
      assert (exists i :: 0 <= i < |l| && LowerStr(l[i].artist) == key)
         ==> (exists i :: 0 <= i < |l[1..]| && LowerStr(l[1..][i].artist) == key) by {
        if exists i :: 0 <= i < |l| && LowerStr(l[i].artist) == key {
          var i :| 0 <= i < |l| && LowerStr(l[i].artist) == key;
          assert LowerStr(l[1..][i - 1].artist) == key;
        }
      }
      assert (exists i :: 0 <= i < |l[1..]| && LowerStr(l[1..][i].artist) == key)
         ==> (exists i :: 0 <= i < |l| && LowerStr(l[i].artist) == key) by {
        if exists i :: 0 <= i < |l[1..]| && LowerStr(l[1..][i].artist) == key {
          var i :| 0 <= i < |l[1..]| && LowerStr(l[1..][i].artist) == key;
          assert LowerStr(l[i + 1].artist) == key;
        }
      }
      r
  }

  /** The page for a selection with the stored names compared case-insensitively. */
  function Show(l: seq<TopEntry>, sel: Option<string>): (v: View)
    ensures sel == None ==> v == AskArtist
    ensures sel == Some([]) ==> v == Blank
    ensures v.Chart? <==> sel.Some? && sel.value != [] && exists i :: 0 <= i < |l| && LowerStr(l[i].artist) == LowerStr(sel.value)
    ensures sel.Some? && sel.value != [] && !v.Chart? ==> v == NoData
    ensures v.Chart? ==> v.total == ShareSum(v.shares)
                         && exists i :: 0 <= i < |l| && LowerStr(l[i].artist) == LowerStr(sel.value) && l[i].shares == v.shares
  {
    match sel
    case None => AskArtist
    case Some(name) =>
      if name == [] then Blank
      else
        var key := LowerStr(name);
        match FindFolded(l, key)
        case Some(e) => Chart(Capitalize(key), ShareSum(e.shares), e.shares)
        case None => NoData
  }

  /**
   * Every artist offered by the selectbox is found; when no two stored names
   * differ only by case, the chart is that artist's own dictionary.
   */
  lemma ShowFindsEveryChoice(l: seq<TopEntry>, i: int)
    requires 0 <= i < |l| && l[i].artist != []
    ensures Show(l, Some(Capitalize(l[i].artist))).Chart?
    ensures CaseDistinct(l) ==>
              Show(l, Some(Capitalize(l[i].artist))).shares == l[i].shares
              && Show(l, Some(Capitalize(l[i].artist))).total == ShareSum(l[i].shares)
  {
    var a := l[i].artist;
    LowerCapitalize(a);
    var r := FindFolded(l, LowerStr(a));
    assert r.Some?;
    if CaseDistinct(l) {
      var j :| 0 <= j < |l| && l[j] == r.value;
      assert LowerStr(l[j].artist) == LowerStr(a);
      assert j == i;
    }
  }

  /**
   * A chart shown for a returned top list reports the total over the cleaned
   * input of the artist the page names: for the code's lookup, the artist
   * stored under the lower-cased choice; for the corrected lookup, a stored
   * artist whose lower-case form is the lower-cased choice.
   */
  lemma ChartTotal(rs: seq<Record>, m: Metric, sel: Option<string>)
    ensures ShowAsWritten(TopArtists(rs, m), sel).Chart? ==>
              && LowerStr(sel.value) in Artists(CleanRecords(rs))
              && ShowAsWritten(TopArtists(rs, m), sel).total == ArtistSum(CleanRecords(rs), LowerStr(sel.value), m)
    ensures Show(TopArtists(rs, m), sel).Chart? ==>
              exists a :: a in Artists(CleanRecords(rs)) && LowerStr(a) == LowerStr(sel.value)
                && Show(TopArtists(rs, m), sel).total == ArtistSum(CleanRecords(rs), a, m)
  {
    ChartTotalAsWritten(rs, m, sel);
    ChartTotalCorrected(rs, m, sel);
  }

  lemma ChartTotalAsWritten(rs: seq<Record>, m: Metric, sel: Option<string>)
    ensures ShowAsWritten(TopArtists(rs, m), sel).Chart? ==>
              && LowerStr(sel.value) in Artists(CleanRecords(rs))
              && ShowAsWritten(TopArtists(rs, m), sel).total == ArtistSum(CleanRecords(rs), LowerStr(sel.value), m)
  {
    var l := TopArtists(rs, m);
    if ShowAsWritten(l, sel).Chart? {
      var key := LowerStr(sel.value);
      TopArtistsEntries(rs, m);
      var r := FindExact(l, key);
      var j :| 0 <= j < |l| && l[j] == r.value;
      assert l[j].artist == key;
      assert ShowAsWritten(l, sel).total == ShareSum(l[j].shares);
    }
  }

  lemma ChartTotalCorrected(rs: seq<Record>, m: Metric, sel: Option<string>)
    ensures Show(TopArtists(rs, m), sel).Chart? ==>
              exists a :: a in Artists(CleanRecords(rs)) && LowerStr(a) == LowerStr(sel.value)
                && Show(TopArtists(rs, m), sel).total == ArtistSum(CleanRecords(rs), a, m)
  {
    var l := TopArtists(rs, m);
    if Show(l, sel).Chart? {
      var key := LowerStr(sel.value);
      TopArtistsEntries(rs, m);
      var f := FindFolded(l, key);
      var j :| 0 <= j < |l| && l[j] == f.value;
      assert LowerStr(l[j].artist) == key;
      assert Show(l, sel).total == ShareSum(l[j].shares);
    }
  }
}
