# Artist contribution pipeline, modelled in Dafny

This project models the data path of the Artist Contribution Analysis app
(`Artist_Detailed_Plot.py`). The app reads per-channel spreadsheets of
(Artist, Channel Name, No of content, No of Content Above Million) rows and
processes them in these steps:

1. It cleans each artist name. The regex `[^a-zA-Z0-9, :]` deletes every
   other character, then `str.replace(', ', ',')` rewrites the commas.
2. It sums both counts per (artist, channel) key.
3. It groups those rows per artist. Each artist gets both totals and a
   channel → count dictionary for each column.
4. It left-merges the two per-artist tables on the artist.
5. For each column, it keeps the ten artists with the largest total.
6. In the viewer, the user picks one of these artists and sees the sum of
   that artist's dictionary.

Everything is pure functions over a `seq<Record>` with `nat` counts:

- `Text` holds the cleaner, with Python's `str.split`/`join` as the
  reference for the comma rewrite. It also holds the code-point string order
  that pandas `groupby` sorts keys by, and ASCII `lower`/`capitalize`.
- `Aggregate` holds stage 1 as a sorted-insert fold, stage 2 as a grouping
  of consecutive rows, and the left merge.
- `TopList` holds `nlargest(10, col)` as a stable sort by descending total
  followed by taking ten rows.
- `Viewer` holds the selectbox options and the lookup.

A Python dict keeps its insertion order, so a channel dictionary is modelled
as a sequence of `Share(channel, count)`. Its channels are in ascending
order, because that is the order `groupby` produces.

Two behaviours of the code are easy to miss:

- **Cleaning is not idempotent.** The rewrite is one left-to-right pass over
  non-overlapping matches. So `",  "` cleans to `", "`, and cleaning that
  again gives `","` (`Text.CleanNotIdempotent`).
- **Empty input raises a `KeyError`.** With no input files, line 19 raises
  on the missing `Artist` column. The model takes the records as its input,
  so this case does not arise.

Ties in the top-10 selection follow the documented `keep='first'` order: the
earlier row wins. The
per-artist table is in ascending artist order, so the earlier row is the
alphabetically smaller artist.

## Model

| member | source | states |
|---|---|---|
| `Text.Strip` | Artist_Detailed_Plot.py:19 | the filtered name is no longer than the raw one and holds only ASCII letters, digits, comma, space and colon |
| `Text.StripAppend` | Artist_Detailed_Plot.py:19 | filtering distributes over concatenation |
| `Text.StripKeepsAllowed` | Artist_Detailed_Plot.py:19 | a name made only of allowed characters passes the filter unchanged |
| `Text.StripIgnoresDisallowed` | Artist_Detailed_Plot.py:19 | inserting a disallowed character anywhere does not change the filtered name |
| `Text.CollapseCommaSpace` | Artist_Detailed_Plot.py:21 | the rewrite never lengthens a name and introduces no character that was not in it |
| `Text.SplitOnCommaSpaceSpec` | Artist_Detailed_Plot.py:21 | the reference split is exact: no piece contains ", " and joining the pieces with ", " gives back the input |
| `Text.CollapseIsSplitJoin` | Artist_Detailed_Plot.py:21 | the rewrite equals splitting on ", " and joining with ",", which is equivalent to `str.replace` for a non-empty separator |
| `Text.CollapseLength` | Artist_Detailed_Plot.py:21 | output length = input length minus the number of separators replaced |
| `Text.CollapseWithoutCommaSpace` | Artist_Detailed_Plot.py:21 | a name without ", " is left unchanged |
| `Text.Clean` | Artist_Detailed_Plot.py:19-21 | a cleaned name is no longer than the raw one and holds only allowed characters |
| `Text.CleanIgnoresDisallowed` | Artist_Detailed_Plot.py:19-21 | names that differ only by a disallowed character clean to the same identifier |
| `Text.CleanAfterStrip` | Artist_Detailed_Plot.py:19-21 | deleting the disallowed characters beforehand does not change the cleaned name |
| `Text.CleanNotIdempotent` | Artist_Detailed_Plot.py:19-21 | `",  "` cleans to `", "`, which cleans to `","`, so cleaning is not idempotent |
| `Text.CleanTwinNames` | Artist_Detailed_Plot.py:19-21 | "J. Cole!" and "J Cole" both clean to "J Cole" |
| `Text.StrLessTotal` | Artist_Detailed_Plot.py:24 | the key order groupby sorts by is total: two different names are ordered one way or the other |
| `Text.StrLessTransitive` | Artist_Detailed_Plot.py:24 | the key order is transitive |
| `Text.LowerCapitalize` | Artist_Detailed_Plot.py:92-99 | lower-casing a capitalised name gives the lower-cased name |
| `Text.LowerStrFixed` | Artist_Detailed_Plot.py:99-101 | a name equals its lower-case form exactly when it holds no upper-case letter |
| `Text.LowerStr` | Artist_Detailed_Plot.py:99 | `str.lower()`: same length, no upper-case letter left, every other character kept; see `Text.LowerStrFixed` |
| `Text.Capitalize` | Artist_Detailed_Plot.py:92 | `str.capitalize()`: same length, first character not lower-case, the rest not upper-case; `Text.LowerCapitalize` shows only case changes |
| `Aggregate.CleanRecords` | Artist_Detailed_Plot.py:19-21 | each row's artist becomes `Text.Clean` of its raw name (so every `Text.Clean` lemma carries over), its channel and counts are kept, and the artist holds only allowed characters |
| `Aggregate.CleanedArtists` | Artist_Detailed_Plot.py:19-21 | the artists of the cleaned records are exactly the cleaned forms of the raw names |
| `Aggregate.CleanedArtistSum` | Artist_Detailed_Plot.py:19-27 | an artist's total over the cleaned records gathers every raw record whose name cleans to it, whatever its raw spelling |
| `Aggregate.CleanRecordsTotal` | Artist_Detailed_Plot.py:19-21 | cleaning keeps both column totals |
| `Aggregate.AddRecord` | Artist_Detailed_Plot.py:24-27 | adding one record to the stage-1 table grows it by at most one row; its contract with the input is `Aggregate.AddRecordKeySum`, `Aggregate.AddRecordKeys` and `Aggregate.AddRecordSorted` |
| `Aggregate.GroupByKey` | Artist_Detailed_Plot.py:24-27 | the stage-1 table has no more rows than the input and is empty only for an empty input; it is stated in full by `Aggregate.GroupByKeySpec`, `Aggregate.GroupByKeyShape` and `Aggregate.GroupByKeySums` |
| `Aggregate.AddRecordSorted` | Artist_Detailed_Plot.py:24-27 | adding a record keeps the stage-1 table in strictly ascending key order |
| `Aggregate.AddRecordKeySum` | Artist_Detailed_Plot.py:24-27 | adding a record raises exactly its own key's sum, by its count |
| `Aggregate.AddRecordKeys` | Artist_Detailed_Plot.py:24-27 | adding a record adds exactly its key and artist to the table's keys and artists |
| `Aggregate.GroupByKeyShape` | Artist_Detailed_Plot.py:24-27 | the stage-1 table is strictly key-sorted and has exactly the input's (artist, channel) keys and artists |
| `Aggregate.GroupByKeySums` | Artist_Detailed_Plot.py:24-27 | stage 1 keeps every key sum, every artist sum and both column totals |
| `Aggregate.RowIsKeySum` | Artist_Detailed_Plot.py:24-27 | in a key-sorted table each key has one row, so a row's count is its key's sum |
| `Aggregate.GroupByKeySpec` | Artist_Detailed_Plot.py:24-27 | every stage-1 row is a key of the input and carries that key's input sums |
| `Aggregate.GroupByArtist` | Artist_Detailed_Plot.py:29-33 | there are no more per-artist rows than stage-1 rows, and the first row is the first stage-1 artist |
| `Aggregate.GroupShareSums` | Artist_Detailed_Plot.py:29-43 | each artist's dictionary sums to that artist's total of the dictionary's column |
| `Aggregate.GroupByArtistSums` | Artist_Detailed_Plot.py:29-43 | grouping keeps column totals, per-artist sums, the set of artists and each artist's channels |
| `Aggregate.GroupByArtistAscending` | Artist_Detailed_Plot.py:29 | the per-artist table is in strictly ascending artist order (artists unique) |
| `Aggregate.GroupByArtistShares` | Artist_Detailed_Plot.py:29-43 | each dictionary lists its channels in ascending order and maps each to its (artist, channel) sum |
| `Aggregate.GroupRow` | Artist_Detailed_Plot.py:29-43 | a per-artist row: totals are the artist's sums; the dictionary sums to its column's total and has exactly the artist's channels |
| `Aggregate.GroupByArtistSameFrame` | Artist_Detailed_Plot.py:29-47 | the two groupings have the same artists and totals row for row |
| `Aggregate.LeftMerge` | Artist_Detailed_Plot.py:50 | `how='left'` keeps every left row once, in order, with its artist and totals; `Aggregate.MergeOneToOne` states the right-hand dictionary each row receives |
| `Aggregate.MergeOneToOne` | Artist_Detailed_Plot.py:50 | with unique aligned artists the left merge pairs row i with right-hand row i |
| `Aggregate.Summaries` | Artist_Detailed_Plot.py:19-50 | `merged_df` has at most one row per input record, and at least one row for a non-empty input; stated in full by `Aggregate.SummaryRow`, `Aggregate.SummariesArtists` and `TopList.SummariesCount` |
| `Aggregate.SummariesFrame` | Artist_Detailed_Plot.py:29-50 | the merged table is each grouping row for row, carrying both dictionaries |
| `Aggregate.SummariesArtists` | Artist_Detailed_Plot.py:19-50 | the merged table is in ascending artist order and lists exactly the cleaned input artists |
| `Aggregate.SummaryRow` | Artist_Detailed_Plot.py:19-50 | per artist, in terms of the input: totals, dictionary sums, dictionary channels and each entry's sum |
| `Aggregate.SummariesConservation` | Artist_Detailed_Plot.py:19-50 | the per-artist totals add up to the raw input's column total |
| `TopList.SortByTotal` | Artist_Detailed_Plot.py:52-55 | the sort keeps the number of rows; `TopList.SortByTotalPerm` and `TopList.SortByTotalRanked` state permutation and order |
| `TopList.Largest` | Artist_Detailed_Plot.py:52-55 | `nlargest(10, col)` keeps min(10, n) rows, each a row of the table; stated in full by `TopList.LargestSpec` |
| `TopList.SortByTotalPerm` | Artist_Detailed_Plot.py:52-55 | the sort is a permutation of the per-artist table |
| `TopList.InsertByTotalRanked` | Artist_Detailed_Plot.py:52-55 | inserting an artist that precedes all others alphabetically keeps the ranking |
| `TopList.SortByTotalRanked` | Artist_Detailed_Plot.py:52-55 | over the artist-ordered table, the stable sort ranks by descending total with ties in artist order |
| `TopList.LargestSpec` | Artist_Detailed_Plot.py:52-56 | nlargest(10) keeps min(10, n) rows of the table, ranked, no artist twice, every left-out row behind every kept row |
| `TopList.SummariesCount` | Artist_Detailed_Plot.py:19-50 | the per-artist table has one row per distinct cleaned artist |
| `TopList.TopArtists` | Artist_Detailed_Plot.py:52-56 | each returned list has min(10, number of merged rows) entries; stated in full over the input by `TopList.TopArtistsSpec` |
| `TopList.LoadAndProcess` | Artist_Detailed_Plot.py:18-59 | `load_and_process_data` returns two lists of the same length, min(10, number of distinct cleaned artists), every entry a cleaned input artist |
| `TopList.TopArtistsSpec` | Artist_Detailed_Plot.py:19-56 | each returned list, over the cleaned input: length min(10, distinct artists); dictionaries with the artist's channels summing to its total; non-increasing totals, ties alphabetical; no left-out artist ranks ahead |
| `Viewer.Unique` | Artist_Detailed_Plot.py:92 | the de-duplicated names are exactly the input names, none repeated |
| `Viewer.DisplayNames` | Artist_Detailed_Plot.py:92 | the offered names are exactly the capitalised stored names, none repeated |
| `Viewer.ArtistOptions` | Artist_Detailed_Plot.py:92-94 | the option list starts with None, has None nowhere else, and offers `Some(x)` exactly for the display names |
| `Viewer.DisplayNamesOffer` | Artist_Detailed_Plot.py:92-94 | every stored artist is offered in the selectbox, capitalised |
| `Viewer.FindExact` | Artist_Detailed_Plot.py:101-105 | the exact-match filter finds an entry exactly when one is stored under that name, and returns such an entry |
| `Viewer.ShowAsWritten` | Artist_Detailed_Plot.py:92-108 | no selection asks for one; an empty name does nothing; a chart appears exactly when the lower-cased name is stored, otherwise "no data"; the chart carries that stored entry's dictionary and its sum as total |
| `Viewer.ShowAsWrittenChoice` | Artist_Detailed_Plot.py:92-108 | choosing a listed artist charts exactly when its lower-cased name is stored |
| `Viewer.ShowAsWrittenOwnName` | Artist_Detailed_Plot.py:130-145 | with names distinct up to case, a listed artist is found exactly when its name has no upper-case letter, and then with its own dictionary |
| `Viewer.UppercaseArtistNotFound` | Artist_Detailed_Plot.py:92-101 | the artist "Drake" is offered as "Drake" and answered with "no data" |
| `Viewer.FindFolded` | Artist_Detailed_Plot.py:101-105 | the corrected filter finds an entry exactly when one lower-cases to the key |
| `Viewer.Show` | Artist_Detailed_Plot.py:92-108 | corrected page: no selection asks for one; an empty name does nothing; a chart appears exactly when some stored name lower-cases to the lower-cased choice, otherwise "no data"; the chart carries such an entry's dictionary and its sum as total |
| `Viewer.ShowFindsEveryChoice` | Artist_Detailed_Plot.py:92-108 | corrected lookup: every offered artist is charted, with its own dictionary and sum when names are distinct up to case |
| `Viewer.ChartTotal` | Artist_Detailed_Plot.py:101-108 | the total printed is the named artist's total over the cleaned input: the artist stored under the lower-cased choice (code as written), or a stored artist whose lower-case form is that choice (corrected lookup) |

## Left out

- Directory listing, the `.xlsx` filter, `pd.read_excel` and the repeated
  `pd.concat` (lines 12-16) are file I/O. The model takes the concatenated
  records as its input. A missing directory, and the exception line 19
  raises when there are no files, are not modelled.
- The Streamlit page is not modelled. This covers the title, the directory
  text input, the Process button and its messages, the DataFrame selectbox,
  the `st.write`/`st.markdown`/`st.warning` texts, and the Plotly pie chart
  and its size (lines 61-162). The lookup rule and the artist options are
  the exception. Which list the DataFrame selectbox picks is the `Metric`
  argument. A chart is modelled as its capitalised name, its total and its
  dictionary.
- pandas NaN and dtype behaviour is not modelled: dropped NaN group keys and
  float coercion of missing counts. Names are strings and counts are `nat`.
  pandas holds the counts as int64, so their group sums wrap around past
  2^63 - 1. The model's `nat` sums do not wrap.
- The `rename` and `reset_index` calls (lines 34, 37, 44, 47, 52, 55) are
  not modelled. They only relabel columns or the index.
- `Aggregate.LeftMerge`: a right-hand artist appearing twice would duplicate
  rows in pandas. That is not modelled, because artists are unique after
  stage 2. An unmatched left row would get NaN; here it gets an empty
  dictionary. `Aggregate.MergeOneToOne` shows that neither case arises.
- `Text.LowerStr` and `Text.Capitalize` map ASCII letters only. Python maps
  all of Unicode, but cleaned names are ASCII, so the mapping is exact for
  every stored name.
- `TopList.Largest`: ties are broken as pandas documents for
  `keep='first'`, i.e. the earlier row wins. With ten rows or fewer, pandas
  sorts with a sort that need not be stable, so its tie order there is not
  guaranteed. The model fixes the documented order.
- `Viewer.Unique` does not state that the names keep the order of their
  first appearance. The definition keeps that order, but no contract says
  so.
- The worked example with three records (two spellings of "J Cole") is
  proved only for its cleaning step (`Text.CleanTwinNames`). The sums of
  that example are covered by the general lemmas about every input.

## Findings

| source | as written | input that shows it | evidently intended | confidence | as-written member | corrected member |
|---|---|---|---|---|---|---|
| Artist_Detailed_Plot.py:92-101 (also 130-138) | The chosen name is lower-cased, then compared exactly with the stored cleaned name, which keeps its case. | A top list with the artist "Drake": the option is "Drake", the lookup key is "drake", nothing matches, and "No data available" is shown. | Every artist offered in the selectbox is found, i.e. the names are compared case-insensitively. | high; not executed | `Viewer.UppercaseArtistNotFound` | `Viewer.ShowFindsEveryChoice` |
