/** The data loader (data_loader.py): a CSV frame read once and cached, and
    the review and review/ground-truth lists drawn from it. The file system
    check and `pandas.read_csv` are oracles of the path. */
module DataLoader {
  import opened Wrappers
  import opened Text

  /** One CSV row, reduced to the two columns the loader reads. A cell is
      `None` when pandas reads it as missing (NaN), otherwise its text as
      `astype(str)` gives it. A cell of a column the frame does not have is
      never looked at. */
  datatype Row = Row(comment: Option<string>, code: Option<string>)

  /** A frame: its column names and its rows in file order. */
  datatype Frame = Frame(columns: set<string>, rows: seq<Row>)

  const CommentColumn := "Comment"
  const CodeColumn := "ProcessedCode"

  /** `DataFrame.empty`: no rows or no columns. */
  predicate IsEmpty(f: Frame)
  {
    |f.rows| == 0 || f.columns == {}
  }

  /** What `pd.read_csv` does with the file: a frame, or an exception
      (a file with no columns at all, a malformed file, ...). */
  datatype ReadResult = ReadFrame(frame: Frame) | ReadFailed

  /** The exceptions the loader lets through. */
  datatype LoadError =
    | FileNotFound          // load_data: the path does not exist
    | ReadError             // load_data: read_csv raised
    | EmptyData             // load_data: the frame is empty
    | MissingComment        // load_data: ValueError, no "Comment" column
    | MissingProcessedCode  // get_reviews_with_ground_truth: ValueError
    | CommentKeyError       // df['Comment'] on a cached frame without it

  // ---------------------------------------------------------------------
  // Loading and caching

  /** The checks `load_data` makes on a freshly read frame. */
  function Validate(f: Frame): (r: Result<Frame, LoadError>)
    ensures r.Success? <==> !IsEmpty(f) && CommentColumn in f.columns
    ensures r.Success? ==> r.value == f
    ensures IsEmpty(f) ==> r == Failure(EmptyData)
    ensures !IsEmpty(f) && CommentColumn !in f.columns ==> r == Failure(MissingComment)
  {
    if IsEmpty(f) then Failure(EmptyData)
    else if CommentColumn !in f.columns then Failure(MissingComment)
    else Success(f)
  }

  /** The result of one `load_data` call and the cache it leaves, from the
      cache before the call, whether the file exists, and what the reader
      gives. The frame is cached as soon as it is read, before it is
      validated. */
  datatype Load = Load(result: Result<Frame, LoadError>, cache: Option<Frame>)

  function Loaded(cache: Option<Frame>, present: bool, read: ReadResult): Load
  {
    if cache.Some? then Load(Success(cache.value), cache)
    else if !present then Load(Failure(FileNotFound), None)
    else if read.ReadFailed? then Load(Failure(ReadError), None)
    else Load(Validate(read.frame), Some(read.frame))
  }

  /** A cached frame is returned as it is, without looking at the file
      system or the reader again and without validating it again. */
  lemma CachedFrameIsReturned(f: Frame, present: bool, read: ReadResult)
    ensures Loaded(Some(f), present, read) == Load(Success(f), Some(f))
  {
  }

  /** A missing file, or a reader that raises, leaves the cache unset, so
      the next call tries again. */
  lemma FailedReadLeavesCacheUnset(present: bool, read: ReadResult)
    requires !present || read.ReadFailed?
    ensures Loaded(None, present, read).result.Failure?
    ensures Loaded(None, present, read).cache.None?
    ensures !present ==> Loaded(None, present, read).result == Failure(FileNotFound)
  {
  }

  /** Once a frame has been read, the second call succeeds with it whatever
      the first call raised and whatever the file now holds: an empty or
      Comment-less frame raises only once. */
  lemma SecondLoadReturnsReadFrame(f: Frame, present2: bool, read2: ReadResult)
    ensures var first := Loaded(None, true, ReadFrame(f));
      first.result == Validate(f) &&
      Loaded(first.cache, present2, read2) == Load(Success(f), Some(f))
  {
  }

  // ---------------------------------------------------------------------
  // Reviews

  /** The non-missing comments in row order (`dropna().astype(str)`). */
  function Comments(rows: seq<Row>): (cs: seq<string>)
    ensures |cs| <= |rows|
  {
    if rows == [] then []
    else
      var last := rows[|rows| - 1];
      Comments(rows[..|rows| - 1]) + (if last.comment.Some? then [last.comment.value] else [])
  }

  /** The comments of two stretches of rows, one after the other: the
      order of the rows is kept. */
  lemma {:induction false} CommentsConcat(a: seq<Row>, b: seq<Row>)
    ensures Comments(a + b) == Comments(a) + Comments(b)
    decreases |b|
  {
    if b != [] {
      var n := |b| - 1;
      assert (a + b)[..|a + b| - 1] == a + b[..n];
      CommentsConcat(a, b[..n]);
    } else {
      assert a + b == a;
    }
  }

  /** Every non-missing comment is kept, blank ones included, and nothing
      else is. */
  lemma {:induction false} CommentsExactly(rows: seq<Row>, c: string)
    ensures c in Comments(rows) <==> exists i :: 0 <= i < |rows| && rows[i].comment == Some(c)
  {
    if rows != [] {
      var n := |rows| - 1;
      CommentsExactly(rows[..n], c);
      if exists i :: 0 <= i < n && rows[..n][i].comment == Some(c) {
        var i :| 0 <= i < n && rows[..n][i].comment == Some(c);
        assert rows[i] == rows[..n][i];
      }
      if exists i :: 0 <= i < |rows| && rows[i].comment == Some(c) {
        var i :| 0 <= i < |rows| && rows[i].comment == Some(c);
        if i < n {
          assert rows[..n][i] == rows[i];
        }
      }
    }
  }

  /** `xs[:limit] if limit else xs`: a missing or zero limit keeps
      everything, a positive one keeps at most that many from the front, a
      negative one drops that many from the back (Python slicing). */
  function Take<T>(xs: seq<T>, limit: Option<int>): (r: seq<T>)
    ensures |r| <= |xs| && r == xs[..|r|]
    ensures limit.None? || limit == Some(0) ==> r == xs
    ensures limit.Some? && limit.value > 0 ==>
              |r| == (if limit.value < |xs| then limit.value else |xs|)
    ensures limit.Some? && limit.value < 0 ==>
              |r| == (if |xs| + limit.value > 0 then |xs| + limit.value else 0)
  {
    if limit.None? || limit.value == 0 then xs
    else if limit.value > 0 then (if limit.value < |xs| then xs[..limit.value] else xs)
    else (if |xs| + limit.value > 0 then xs[..|xs| + limit.value] else [])
  }

  /** What `get_reviews` returns from a frame that has a Comment column:
      the limit applies after the missing comments have been dropped. */
  function Reviews(f: Frame, limit: Option<int>): seq<string>
  {
    Take(Comments(f.rows), limit)
  }

  /** The result of `get_reviews` once `load_data` has given `loaded`:
      a `KeyError` when the frame (a cached one) has no Comment column. */
  function ReviewsAfter(loaded: Result<Frame, LoadError>, limit: Option<int>): Result<seq<string>, LoadError>
  {
    if loaded.Failure? then Failure(loaded.error)
    else if CommentColumn !in loaded.value.columns then Failure(CommentKeyError)
    else Success(Reviews(loaded.value, limit))
  }

  /** A Comment-less frame raises `ValueError` on the call that reads it and
      `KeyError` on every later call, which finds it cached. */
  lemma CommentlessFrameRaisesTwice(f: Frame, present: bool, read: ReadResult, limit: Option<int>)
    requires !IsEmpty(f) && CommentColumn !in f.columns
    ensures var first := Loaded(None, true, ReadFrame(f));
      ReviewsAfter(first.result, limit) == Failure(MissingComment) &&
      ReviewsAfter(Loaded(first.cache, present, read).result, limit) == Failure(CommentKeyError)
  {
  }

  // ---------------------------------------------------------------------
  // Reviews with ground truth

  /** The comment filter of `get_reviews_with_ground_truth`: present and not
      blank after strip. */
  predicate HasComment(row: Row)
  {
    row.comment.Some? && Strip(row.comment.value) != ""
  }

  /** The code filters of `get_reviews_with_ground_truth` when empty ground
      truth is left out: present, not blank after strip, and not the text
      "nan" in any letter case. */
  predicate HasCode(row: Row)
  {
    row.code.Some? && Strip(row.code.value) != "" && Lower(row.code.value) != "nan"
  }

  /** `astype(str)` of the code cell: a missing code reads as "nan". */
  function CodeText(row: Row): string
  {
    if row.code.Some? then row.code.value else "nan"
  }

  /** Whether a row survives the filters of `get_reviews_with_ground_truth`. */
  predicate Kept(row: Row, includeEmpty: bool)
  {
    HasComment(row) && (includeEmpty || HasCode(row))
  }

  /** The (comment, code) pairs of the kept rows, in row order. */
  function Pairs(rows: seq<Row>, includeEmpty: bool): (ps: seq<(string, string)>)
    ensures |ps| <= |rows|
  {
    if rows == [] then []
    else
      var last := rows[|rows| - 1];
      Pairs(rows[..|rows| - 1], includeEmpty) +
        (if Kept(last, includeEmpty) then [(last.comment.value, CodeText(last))] else [])
  }

  /** The pairs keep the order of the rows. */
  lemma {:induction false} PairsConcat(a: seq<Row>, b: seq<Row>, includeEmpty: bool)
    ensures Pairs(a + b, includeEmpty) == Pairs(a, includeEmpty) + Pairs(b, includeEmpty)
    decreases |b|
  {
    if b != [] {
      var n := |b| - 1;
      assert (a + b)[..|a + b| - 1] == a + b[..n];
      PairsConcat(a, b[..n], includeEmpty);
    } else {
      assert a + b == a;
    }
  }

  /** Every pair comes from a kept row: its comment is not blank and, unless
      empty ground truth is included, its code is present, not blank and not
      "nan". */
  lemma {:induction false} PairsAreKeptRows(rows: seq<Row>, includeEmpty: bool, k: int)
    requires 0 <= k < |Pairs(rows, includeEmpty)|
    ensures exists i :: (0 <= i < |rows| && Kept(rows[i], includeEmpty) &&
      Pairs(rows, includeEmpty)[k] == (rows[i].comment.value, CodeText(rows[i])))
  {
    var n := |rows| - 1;
    var before := Pairs(rows[..n], includeEmpty);
    if k < |before| {
      PairsAreKeptRows(rows[..n], includeEmpty, k);
      var i :| 0 <= i < n && Kept(rows[..n][i], includeEmpty) &&
        before[k] == (rows[..n][i].comment.value, CodeText(rows[..n][i]));
      assert rows[i] == rows[..n][i];
    } else {
      assert Kept(rows[n], includeEmpty);
    }
  }

  /** Conversely, every kept row gives its pair: with empty ground truth
      included no code filter applies, and a row with a usable code and a
      non-blank comment is never dropped. */
  lemma PairsComplete(rows: seq<Row>, includeEmpty: bool, i: int)
    requires 0 <= i < |rows| && Kept(rows[i], includeEmpty)
    ensures (rows[i].comment.value, CodeText(rows[i])) in Pairs(rows, includeEmpty)
  {
    var pre, post := rows[..i], rows[i + 1..];
    assert rows == pre + [rows[i]] + post;
    PairsConcat(pre + [rows[i]], post, includeEmpty);
    PairsConcat(pre, [rows[i]], includeEmpty);
    assert [rows[i]][..0] == [];
  }

  /** What those pair properties say about the texts themselves. */
  lemma PairsAreWellFormed(rows: seq<Row>, includeEmpty: bool, k: int)
    requires 0 <= k < |Pairs(rows, includeEmpty)|
    ensures var (comment, code) := Pairs(rows, includeEmpty)[k];
      Strip(comment) != "" &&
      (!includeEmpty ==> Strip(code) != "" && Lower(code) != "nan")
  {
    PairsAreKeptRows(rows, includeEmpty, k);
  }

  /** The rows with a usable code, in order. */
  function WithCode(rows: seq<Row>): (ws: seq<Row>)
    ensures forall i :: 0 <= i < |ws| ==> HasCode(ws[i])
  {
    if rows == [] then []
    else
      var last := rows[|rows| - 1];
      WithCode(rows[..|rows| - 1]) + (if HasCode(last) then [last] else [])
  }

  /** Leaving out empty ground truth is the same as first dropping the rows
      without a usable code and then keeping every commented row: the code
      filters never touch the comment filter's decision. */
  lemma {:induction false} ExcludingIsFilteringCodesFirst(rows: seq<Row>)
    ensures Pairs(rows, false) == Pairs(WithCode(rows), true)
  {
    if rows != [] {
      var n := |rows| - 1;
      var last := rows[n];
      ExcludingIsFilteringCodesFirst(rows[..n]);
      PairsConcat(WithCode(rows[..n]), if HasCode(last) then [last] else [], true);
      if HasCode(last) {
        assert [last][..0] == [];
      }
    }
  }

  /** With empty ground truth included, a commented row with no code is
      kept, paired with "nan". */
  lemma MissingCodeReadsAsNan(comment: string)
    requires Strip(comment) != ""
    ensures Pairs([Row(Some(comment), None)], true) == [(comment, "nan")]
    ensures Pairs([Row(Some(comment), None)], false) == []
  {
    assert [Row(Some(comment), None)][..0] == [];
  }

  /** The result of `get_reviews_with_ground_truth` once `load_data` has
      given `loaded`: the ProcessedCode column is checked first, then the
      Comment column is read. */
  function PairsAfter(loaded: Result<Frame, LoadError>, limit: Option<int>, includeEmpty: bool)
    : Result<seq<(string, string)>, LoadError>
  {
    if loaded.Failure? then Failure(loaded.error)
    else if CodeColumn !in loaded.value.columns then Failure(MissingProcessedCode)
    else if CommentColumn !in loaded.value.columns then Failure(CommentKeyError)
    else Success(Take(Pairs(loaded.value.rows, includeEmpty), limit))
  }

  /** A loaded frame without a ProcessedCode column always raises
      `ValueError`, whether or not it has a Comment column. */
  lemma MissingCodeColumnRaises(f: Frame, limit: Option<int>, includeEmpty: bool)
    requires CodeColumn !in f.columns
    ensures PairsAfter(Success(f), limit, includeEmpty) == Failure(MissingProcessedCode)
  {
  }

  // ---------------------------------------------------------------------
  // The loader object

  /** `DataLoader`: the file path and the cached frame (`self._df`). */
  class Loader {
    const filePath: string
    var cache: Option<Frame>

    constructor(filePath: string)
      ensures this.filePath == filePath && cache.None?
    {
      this.filePath := filePath;
      cache := None;
    }

    /** `load_data`: the cached frame if there is one; otherwise the file is
        checked, read and cached, then validated. */
    method LoadData(pathExists: string -> bool, readCsv: string -> ReadResult)
      returns (r: Result<Frame, LoadError>)
      modifies this
      ensures Load(r, cache) == Loaded(old(cache), pathExists(filePath), readCsv(filePath))
    {
      if cache.Some? {
        return Success(cache.value);
      }
      if !pathExists(filePath) {
        return Failure(FileNotFound);
      }
      var read := readCsv(filePath);
      if read.ReadFailed? {
        return Failure(ReadError);
      }
      cache := Some(read.frame);
      var f := read.frame;
      if |f.rows| == 0 || f.columns == {} {
        return Failure(EmptyData);
      }
      if CommentColumn !in f.columns {
        return Failure(MissingComment);
      }
      r := Success(f);
    }

    /** `get_reviews(limit)` */
    method GetReviews(pathExists: string -> bool, readCsv: string -> ReadResult, limit: Option<int>)
      returns (r: Result<seq<string>, LoadError>)
      modifies this
      ensures var load := Loaded(old(cache), pathExists(filePath), readCsv(filePath));
        cache == load.cache && r == ReviewsAfter(load.result, limit)
    {
      var df := LoadData(pathExists, readCsv);
      if df.Failure? {
        return Failure(df.error);
      }
      if CommentColumn !in df.value.columns {
        return Failure(CommentKeyError);
      }
      r := Success(Take(Comments(df.value.rows), limit));
    }

    /** `get_reviews_with_ground_truth(limit, include_empty_ground_truth)` */
    method GetReviewsWithGroundTruth(pathExists: string -> bool, readCsv: string -> ReadResult,
                                     limit: Option<int>, includeEmpty: bool)
      returns (r: Result<seq<(string, string)>, LoadError>)
      modifies this
      ensures var load := Loaded(old(cache), pathExists(filePath), readCsv(filePath));
        cache == load.cache && r == PairsAfter(load.result, limit, includeEmpty)
    {
      var df := LoadData(pathExists, readCsv);
      if df.Failure? {
        return Failure(df.error);
      }
      if CodeColumn !in df.value.columns {
        return Failure(MissingProcessedCode);
      }
      if CommentColumn !in df.value.columns {
        return Failure(CommentKeyError);
      }
      r := Success(Take(Pairs(df.value.rows, includeEmpty), limit));
    }
  }
}
