/**
 * String rules used by the artist pipeline: the artist-name cleaner (a
 * character-class filter followed by the ", " -> "," rewrite of Python's
 * str.replace), the code-point order pandas sorts group keys by, and the
 * ASCII case mapping behind str.lower() and str.capitalize().
 */
module Text {

  // ---------------------------------------------------------------------
  // Character filter: the regex [^a-zA-Z0-9, :] replaced by ''
  // ---------------------------------------------------------------------

  /** The characters the cleaning regex keeps: ASCII letters, digits, comma, space, colon. */
  predicate Allowed(c: char) {
    ('a' <= c <= 'z') || ('A' <= c <= 'Z') || ('0' <= c <= '9') || c == ',' || c == ' ' || c == ':'
  }

  predicate AllAllowed(s: string) {
    forall i :: 0 <= i < |s| ==> Allowed(s[i])
  }

  /** Deletes every character outside the allowed class, keeping the order of the rest. */
  function Strip(s: string): (r: string)
    ensures |r| <= |s|
    ensures AllAllowed(r)
  {
    if s == [] then []
    else if Allowed(s[0]) then [s[0]] + Strip(s[1..])
    else Strip(s[1..])
  }

  /** Filtering distributes over concatenation. */
  lemma {:induction false} StripAppend(a: string, b: string)
    ensures Strip(a + b) == Strip(a) + Strip(b)
  {
    if a == [] {
      assert a + b == b;
    } else {
      assert (a + b)[1..] == a[1..] + b;
      StripAppend(a[1..], b);
    }
  }

  /** A name made only of allowed characters passes the filter unchanged. */
  lemma {:induction false} StripKeepsAllowed(s: string)
    requires AllAllowed(s)
    ensures Strip(s) == s
  {
    if s != [] {
      StripKeepsAllowed(s[1..]);
    }
  }

  /** A disallowed character anywhere in a name is invisible to the filter. */
  lemma StripIgnoresDisallowed(a: string, c: char, b: string)
    requires !Allowed(c)
    ensures Strip(a + [c] + b) == Strip(a + b)
  {
    StripAppend(a + [c], b);
    StripAppend(a, [c]);
    StripAppend(a, b);
    assert Strip([c]) == [];
  }

  // ---------------------------------------------------------------------
  // The ", " -> "," rewrite (Python str.replace)
  // ---------------------------------------------------------------------

  /** True when `p` has the two-character sequence ", " somewhere. */
  predicate HasCommaSpace(p: string) {
    exists i :: 0 <= i < |p| - 1 && p[i] == ',' && p[i + 1] == ' '
  }

  predicate StartsWithCommaSpace(s: string) {
    |s| >= 2 && s[0] == ',' && s[1] == ' '
  }

  /**
   * One left-to-right scan that turns each ", " it meets into ",". After a
   * replacement the scan resumes behind the consumed space, so occurrences
   * never overlap and a space that follows the consumed one is kept.
   */
  function CollapseCommaSpace(s: string): (r: string)
    ensures |r| <= |s|
    ensures forall i :: 0 <= i < |r| ==> r[i] in s
  {
    if StartsWithCommaSpace(s) then [','] + CollapseCommaSpace(s[2..])
    else if s == [] then []
    else [s[0]] + CollapseCommaSpace(s[1..])
  }

  /** Python's sep.join(pieces). */
  function JoinWith(pieces: seq<string>, sep: string): string {
    if |pieces| == 0 then []
    else if |pieces| == 1 then pieces[0]
    else pieces[0] + sep + JoinWith(pieces[1..], sep)
  }

  /** Python's s.split(", "): the pieces between the separators found left to right. */
  function SplitOnCommaSpace(s: string): (pieces: seq<string>)
    ensures |pieces| >= 1
  {
    if StartsWithCommaSpace(s) then [[]] + SplitOnCommaSpace(s[2..])
    else if s == [] then [[]]
    else
      var p := SplitOnCommaSpace(s[1..]);
      [[s[0]] + p[0]] + p[1..]
  }

  lemma JoinConsHead(c: char, p: seq<string>, sep: string)
    requires |p| >= 1
    ensures JoinWith([[c] + p[0]] + p[1..], sep) == [c] + JoinWith(p, sep)
  {
    var q := [[c] + p[0]] + p[1..];
    if |p| > 1 {
      assert q[1..] == p[1..];
    }
  }

  /**
   * The split is exact: no piece holds the separator, and joining the pieces
   * with the separator gives back the input.
   */
  lemma {:induction false} SplitOnCommaSpaceSpec(s: string)
    ensures JoinWith(SplitOnCommaSpace(s), ", ") == s
    ensures forall k :: 0 <= k < |SplitOnCommaSpace(s)| ==> !HasCommaSpace(SplitOnCommaSpace(s)[k])
    ensures s != [] && !StartsWithCommaSpace(s) ==>
              SplitOnCommaSpace(s)[0] != [] && SplitOnCommaSpace(s)[0][0] == s[0]
    ensures StartsWithCommaSpace(s) ==> SplitOnCommaSpace(s)[0] == []
  {
    var pieces := SplitOnCommaSpace(s);
    if StartsWithCommaSpace(s) {
      SplitOnCommaSpaceSpec(s[2..]);
      var p := SplitOnCommaSpace(s[2..]);
      assert pieces == [[]] + p;
      assert pieces[1..] == p;
      assert ", " + s[2..] == s;
      forall k | 0 <= k < |pieces|
        ensures !HasCommaSpace(pieces[k])
      {
        if k > 0 {
          assert pieces[k] == p[k - 1];
        }
      }
    } else if s == [] {
    } else {
      SplitOnCommaSpaceSpec(s[1..]);
      var p := SplitOnCommaSpace(s[1..]);
      JoinConsHead(s[0], p, ", ");
      assert [s[0]] + s[1..] == s;
      var head := [s[0]] + p[0];
      forall k | 0 <= k < |pieces|
        ensures !HasCommaSpace(pieces[k])
      {
        if k == 0 {
          forall i | 0 <= i < |head| - 1
            ensures !(head[i] == ',' && head[i + 1] == ' ')
          {
            assert head[i + 1] == p[0][i];
            if i > 0 {
              assert head[i] == p[0][i - 1];
            }
          }
        } else {
          assert pieces[k] == p[k];
        }
      }
    }
  }

  /** The rewrite equals splitting on ", " and joining with ",", which is what str.replace does for a non-empty separator. */
  lemma {:induction false} CollapseIsSplitJoin(s: string)
    ensures CollapseCommaSpace(s) == JoinWith(SplitOnCommaSpace(s), ",")
  {
    if StartsWithCommaSpace(s) {
      CollapseIsSplitJoin(s[2..]);
      var p := SplitOnCommaSpace(s[2..]);
      assert SplitOnCommaSpace(s)[1..] == p;
    } else if s != [] {
      CollapseIsSplitJoin(s[1..]);
      JoinConsHead(s[0], SplitOnCommaSpace(s[1..]), ",");
    }
  }

  /** Each replacement removes exactly one character: one per separator found. */
  lemma {:induction false} CollapseLength(s: string)
    ensures |CollapseCommaSpace(s)| == |s| - (|SplitOnCommaSpace(s)| - 1)
  {
    if StartsWithCommaSpace(s) {
      CollapseLength(s[2..]);
    } else if s != [] {
      CollapseLength(s[1..]);
    }
  }

  /** Without a ", " the rewrite leaves a name as it is. */
  lemma {:induction false} CollapseWithoutCommaSpace(s: string)
    requires !HasCommaSpace(s)
    ensures CollapseCommaSpace(s) == s
  {
    if s != [] {
      assert !HasCommaSpace(s[1..]) by {
        forall i | 0 <= i < |s| - 2
          ensures !(s[1..][i] == ',' && s[1..][i + 1] == ' ')
        {
          assert s[1..][i] == s[i + 1] && s[1..][i + 1] == s[i + 2];
        }
      }
      CollapseWithoutCommaSpace(s[1..]);
    }
  }

  // ---------------------------------------------------------------------
  // The artist-name cleaner
  // ---------------------------------------------------------------------

  /** The cleaned artist identifier: filter first, then the ", " rewrite. */
  function Clean(s: string): (r: string)
    ensures |r| <= |s|
    ensures AllAllowed(r)
  {
    CollapseCommaSpace(Strip(s))
  }

  /** Names that differ only by disallowed characters clean to the same identifier. */
  lemma CleanIgnoresDisallowed(a: string, c: char, b: string)
    requires !Allowed(c)
    ensures Clean(a + [c] + b) == Clean(a + b)
  {
    StripIgnoresDisallowed(a, c, b);
  }

  /** Deleting the disallowed characters first changes nothing. */
  lemma CleanAfterStrip(s: string)
    ensures Clean(Strip(s)) == Clean(s)
  {
    StripKeepsAllowed(Strip(s));
  }

  /** The cleaner is not idempotent: a second run rewrites a ", " the first run left behind. */
  lemma CleanNotIdempotent()
    ensures Clean(",  ") == ", "
    ensures Clean(Clean(",  ")) == ","
  {
    assert Strip(",  ") == ",  ";
    assert Strip(", ") == ", ";
    assert CollapseCommaSpace(" ") == " ";
    assert CollapseCommaSpace(",  ") == [','] + CollapseCommaSpace(" ");
  }

  /** "J. Cole!" and "J Cole" clean to the same identifier, "J Cole". */
  lemma CleanTwinNames()
    ensures Clean("J. Cole!") == "J Cole"
    ensures Clean("J Cole") == "J Cole"
  {
    CleanDropsDot();
    CleanDropsBang();
    CleanKeepsPlainName();
  }

  lemma CleanDropsDot()
    ensures Clean("J. Cole!") == Clean("J Cole!")
  {
    CleanIgnoresDisallowed("J", '.', " Cole!");
    assert "J" + ['.'] + " Cole!" == "J. Cole!";
    assert "J" + " Cole!" == "J Cole!";
  }

  lemma CleanDropsBang()
    ensures Clean("J Cole!") == Clean("J Cole")
  {
    CleanIgnoresDisallowed("J Cole", '!', "");
    assert "J Cole" + ['!'] + "" == "J Cole!";
    assert "J Cole" + "" == "J Cole";
  }

  lemma CleanKeepsPlainName()
    ensures Clean("J Cole") == "J Cole"
  {
    assert AllAllowed("J Cole");
    assert !HasCommaSpace("J Cole");
    StripKeepsAllowed("J Cole");
    CollapseWithoutCommaSpace("J Cole");
  }

  // ---------------------------------------------------------------------
  // Code-point order of strings (the order pandas groupby sorts keys in)
  // ---------------------------------------------------------------------

  /** Lexicographic order by code point; a proper prefix comes first. */
  predicate StrLess(a: string, b: string) {
    if a == [] then b != []
    else if b == [] then false
    else a[0] < b[0] || (a[0] == b[0] && StrLess(a[1..], b[1..]))
  }

  lemma {:induction false} StrLessIrreflexive(a: string)
    ensures !StrLess(a, a)
  {
    if a != [] {
      StrLessIrreflexive(a[1..]);
    }
  }

  lemma {:induction false} StrLessTransitive(a: string, b: string, c: string)
    requires StrLess(a, b) && StrLess(b, c)
    ensures StrLess(a, c)
  {
    if a != [] && b != [] && c != [] && a[0] == b[0] && b[0] == c[0] {
      StrLessTransitive(a[1..], b[1..], c[1..]);
    }
  }

  lemma {:induction false} StrLessTotal(a: string, b: string)
    requires a != b
    ensures StrLess(a, b) || StrLess(b, a)
  {
    if a != [] && b != [] && a[0] == b[0] {
      assert a == [a[0]] + a[1..] && b == [b[0]] + b[1..];
      StrLessTotal(a[1..], b[1..]);
    }
  }

  // ---------------------------------------------------------------------
  // ASCII case mapping (exact for cleaned names, which are ASCII only)
  // ---------------------------------------------------------------------

  predicate IsUpper(c: char) { 'A' <= c <= 'Z' }

  function Lower(c: char): char {
    if IsUpper(c) then (c as int + 32) as char else c
  }

  function Upper(c: char): char {
    if 'a' <= c <= 'z' then (c as int - 32) as char else c
  }

  /** str.lower() */
  function LowerStr(s: string): (r: string)
    ensures |r| == |s|
    ensures forall i :: 0 <= i < |r| ==> !IsUpper(r[i])
    ensures forall i :: 0 <= i < |r| && !IsUpper(s[i]) ==> r[i] == s[i]
  {
    seq(|s|, i requires 0 <= i < |s| => Lower(s[i]))
  }

  /** str.capitalize(): first character upper case, the rest lower case. */
  function Capitalize(s: string): (r: string)
    ensures |r| == |s|
    ensures s != [] ==> !('a' <= r[0] <= 'z')
    ensures forall i :: 1 <= i < |r| ==> !IsUpper(r[i])
  {
    if s == [] then [] else [Upper(s[0])] + LowerStr(s[1..])
  }

  /** Lower-casing a capitalised name gives the lower-cased name: capitalising loses only case. */
  lemma LowerCapitalize(s: string)
    ensures |Capitalize(s)| == |s|
    ensures LowerStr(Capitalize(s)) == LowerStr(s)
  {
    if s != [] {
      var c := Capitalize(s);
      assert Lower(Upper(s[0])) == Lower(s[0]);
      forall i | 1 <= i < |s|
        ensures Lower(c[i]) == Lower(s[i])
      {
        assert c[i] == Lower(s[i]);
      }
    }
  }

  /** A name equals its lower-case form exactly when it holds no upper-case letter. */
  lemma LowerStrFixed(s: string)
    ensures LowerStr(s) == s <==> forall i :: 0 <= i < |s| ==> !IsUpper(s[i])
  {
    if LowerStr(s) == s {
      forall i | 0 <= i < |s|
        ensures !IsUpper(s[i])
      {
        assert LowerStr(s)[i] == Lower(s[i]);
      }
    }
  }
}
