/** `loadtxt` of src/util.rs: a whitespace-separated text file read line by
    line, word w of every line appended to column w. Reading the file and
    parsing a word as `f64` are parameters of the model. */
module Util {
  import opened Wrappers
  import opened Numeric

  // ---------------------------------------------------------------------
  // Lines and words

  /** Unicode's White_Space property, which `split_whitespace` splits on. */
  predicate IsWhitespace(c: char)
  {
    || '\U{9}' <= c <= '\U{D}' || c == ' ' || c == '\U{85}' || c == '\U{A0}' || c == '\U{1680}'
    || '\U{2000}' <= c <= '\U{200A}' || c == '\U{2028}' || c == '\U{2029}' || c == '\U{202F}'
    || c == '\U{205F}' || c == '\U{3000}'
  }

  /** The length of the longest prefix of s without a line feed. */
  function LineLength(s: string): (n: nat)
    ensures n <= |s|
    ensures forall i :: 0 <= i < n ==> s[i] != '\n'
    ensures n < |s| ==> s[n] == '\n'
  {
    if |s| == 0 || s[0] == '\n' then 0 else 1 + LineLength(s[1..])
  }

  /** `str::lines`: split at each line feed, drop a carriage return before
      it, and yield no line after a final line feed. */
  function Lines(s: string): (ls: seq<string>)
    ensures NoLineFeeds(ls)
    decreases |s|
  {
    if |s| == 0 then []
    else
      var n := LineLength(s);
      var line := if n < |s| && n > 0 && s[n - 1] == '\r' then s[..n - 1] else s[..n];
      assert forall i :: 0 <= i < |line| ==> line[i] == s[i];
      if n == |s| then [line] else [line] + Lines(s[n + 1..])
  }

  predicate NoLineFeeds(ls: seq<string>)
  {
    forall i :: 0 <= i < |ls| ==> '\n' !in ls[i]
  }

  /** Text without a line feed is a single line, kept whole. */
  lemma LinesOfLine(a: string)
    requires |a| > 0 && '\n' !in a
    ensures Lines(a) == [a]
  {
    assert LineLength(a) == |a|;
    assert a[..|a|] == a;
  }

  /** A line feed ends the line before it, with one carriage return just
      before the line feed dropped; splitting goes on after it. */
  lemma LinesSplit(a: string, b: string)
    requires '\n' !in a
    ensures |a| > 0 && a[|a| - 1] == '\r' ==> Lines(a + "\n" + b) == [a[..|a| - 1]] + Lines(b)
    ensures (|a| == 0 || a[|a| - 1] != '\r') ==> Lines(a + "\n" + b) == [a] + Lines(b)
  {
    var s := a + "\n" + b;
    assert s[..|a|] == a;
    assert s[|a| + 1..] == b;
    LinesAt(s, |a|);
    if |a| > 0 {
      assert s[|a| - 1] == a[|a| - 1];
      assert s[..|a| - 1] == a[..|a| - 1];
    }
  }

  /** The first line feed at k ends the first line. */
  lemma LinesAt(s: string, k: nat)
    requires k < |s| && s[k] == '\n' && '\n' !in s[..k]
    ensures Lines(s) == [if k > 0 && s[k - 1] == '\r' then s[..k - 1] else s[..k]] + Lines(s[k + 1..])
  {
    assert forall i :: 0 <= i < k ==> s[..k][i] == s[i];
    assert LineLength(s) == k;
    var line := if k > 0 && s[k - 1] == '\r' then s[..k - 1] else s[..k];
    assert Lines(s) == [line] + Lines(s[k + 1..]);
  }

  /** The length of the longest prefix of s without whitespace. */
  function WordLength(s: string): (n: nat)
    ensures n <= |s|
    ensures forall i :: 0 <= i < n ==> !IsWhitespace(s[i])
    ensures n < |s| ==> IsWhitespace(s[n])
  {
    if |s| == 0 || IsWhitespace(s[0]) then 0 else 1 + WordLength(s[1..])
  }

  /** A word: non-empty and free of whitespace. */
  predicate IsWord(w: string)
  {
    |w| > 0 && forall i :: 0 <= i < |w| ==> !IsWhitespace(w[i])
  }

  predicate AllWords(ws: seq<string>)
  {
    forall i :: 0 <= i < |ws| ==> IsWord(ws[i])
  }

  /** `str::split_whitespace`: the maximal runs of non-whitespace. */
  function Words(s: string): (ws: seq<string>)
    ensures AllWords(ws)
    decreases |s|
  {
    if |s| == 0 then []
    else if IsWhitespace(s[0]) then Words(s[1..])
    else
      var n := WordLength(s);
      assert forall i :: 0 <= i < n ==> s[..n][i] == s[i];
      [s[..n]] + Words(s[n..])
  }

  /** A text without whitespace is one word, or none when it is empty. */
  lemma WordsOfWord(s: string)
    requires forall i :: 0 <= i < |s| ==> !IsWhitespace(s[i])
    ensures Words(s) == if |s| == 0 then [] else [s]
  {
    if |s| > 0 {
      WordLengthAll(s);
      assert s[..|s|] == s;
      assert Words(s[|s|..]) == [];
      assert Words(s) == [s[..|s|]] + Words(s[|s|..]);
    }
  }

  lemma {:induction false} WordLengthAll(s: string)
    requires forall i :: 0 <= i < |s| ==> !IsWhitespace(s[i])
    ensures WordLength(s) == |s|
  {
    if |s| > 0 {
      WordLengthAll(s[1..]);
    }
  }

  /** Whitespace around words only separates them: any whitespace
      character between two texts splits the words of their concatenation
      into theirs. */
  lemma {:induction false} WordsSeparated(a: string, c: char, b: string)
    requires IsWhitespace(c)
    ensures Words(a + [c] + b) == Words(a) + Words(b)
    decreases |a|
  {
    if |a| == 0 {
      assert (a + [c] + b)[1..] == b;
    } else if IsWhitespace(a[0]) {
      assert (a + [c] + b)[1..] == a[1..] + [c] + b;
      WordsSeparated(a[1..], c, b);
    } else {
      var s := a + [c] + b;
      var n := WordLength(a);
      WordLengthConcat(a, [c] + b);
      assert s == a + ([c] + b);
      assert s[..n] == a[..n];
      if n == |a| {
        assert s[n..] == [c] + b;
        assert ([c] + b)[1..] == b;
        assert a[n..] == [];
      } else {
        assert s[n..] == a[n..] + [c] + b;
        WordsSeparated(a[n..], c, b);
      }
    }
  }

  /** A word that ends inside a, or at a's end before whitespace, has the
      same length in a + b. */
  lemma {:induction false} WordLengthConcat(a: string, b: string)
    requires |b| > 0 && IsWhitespace(b[0])
    ensures WordLength(a + b) == WordLength(a)
  {
    if |a| > 0 && !IsWhitespace(a[0]) {
      assert (a + b)[1..] == a[1..] + b;
      WordLengthConcat(a[1..], b);
    }
  }

  // ---------------------------------------------------------------------
  // Parsing

  /** What `loadtxt` can fail on: the file cannot be read, or a word is not
      a number (`unwrap` panics in both cases). */
  datatype LoadError = Unreadable | Unparsable(word: string)

  /** Every word parsed to its counterpart. */
  predicate WordsParsed(words: seq<string>, parse: string -> Option<Float>, row: seq<Float>)
  {
    |row| == |words| && forall i :: 0 <= i < |words| ==> parse(words[i]) == Some(row[i])
  }

  /** The error names a word that does not parse. */
  predicate FailsOnSomeWord(words: seq<string>, parse: string -> Option<Float>, e: LoadError)
  {
    exists i :: 0 <= i < |words| && parse(words[i]).None? && e == Unparsable(words[i])
  }

  /** The words of a row parsed in order; the first word that does not
      parse is the error. */
  function ParseRow(words: seq<string>, parse: string -> Option<Float>): (r: Result<seq<Float>, LoadError>)
    ensures r.Ok? ==> WordsParsed(words, parse, r.value)
    ensures r.Err? ==> FailsOnSomeWord(words, parse, r.error)
  {
    if |words| == 0 then Ok([])
    else
      match ParseRow(words[..|words| - 1], parse)
      case Err(e) => Err(e)
      case Ok(row) =>
        match parse(words[|words| - 1])
        case None => Err(Unparsable(words[|words| - 1]))
        case Some(x) => Ok(row + [x])
  }

  /** Once a prefix of the words fails to parse, the whole row fails the
      same way. */
  lemma {:induction false} ParseRowStopsAtError(words: seq<string>, parse: string -> Option<Float>, k: nat)
    requires k <= |words| && ParseRow(words[..k], parse).Err?
    ensures ParseRow(words, parse) == ParseRow(words[..k], parse)
    decreases |words|
  {
    if k < |words| {
      var p := words[..|words| - 1];
      assert p[..k] == words[..k];
      ParseRowStopsAtError(p, parse, k);
    } else {
      assert words[..k] == words;
    }
  }

  /** Parsing one more row of a prefix that parsed. */
  lemma ParseRowsNext(rows: seq<seq<string>>, parse: string -> Option<Float>, l: nat)
    requires l < |rows| && ParseRows(rows[..l], parse).Ok?
    ensures ParseRow(rows[l], parse).Err? ==> ParseRows(rows[..l + 1], parse) == Err(ParseRow(rows[l], parse).error)
    ensures ParseRow(rows[l], parse).Ok? ==>
      ParseRows(rows[..l + 1], parse) == Ok(ParseRows(rows[..l], parse).value + [ParseRow(rows[l], parse).value])
  {
    assert rows[..l + 1][..l] == rows[..l];
    assert rows[..l + 1][l] == rows[l];
  }

  /** Every row parsed to its counterpart. */
  predicate RowsParsed(rows: seq<seq<string>>, parse: string -> Option<Float>, parsed: seq<seq<Float>>)
  {
    |parsed| == |rows| && forall i :: 0 <= i < |rows| ==> ParseRow(rows[i], parse) == Ok(parsed[i])
  }

  /** The error names a word of some row that does not parse. */
  predicate FailsOnSomeRow(rows: seq<seq<string>>, parse: string -> Option<Float>, e: LoadError)
  {
    exists i :: 0 <= i < |rows| && FailsOnSomeWord(rows[i], parse, e)
  }

  /** The rows parsed in order; the first failing row's error is the error. */
  function ParseRows(rows: seq<seq<string>>, parse: string -> Option<Float>): (r: Result<seq<seq<Float>>, LoadError>)
    ensures r.Ok? ==> RowsParsed(rows, parse, r.value)
    ensures r.Err? ==> FailsOnSomeRow(rows, parse, r.error)
  {
    if |rows| == 0 then Ok([])
    else
      match ParseRows(rows[..|rows| - 1], parse)
      case Err(e) => Err(e)
      case Ok(done) =>
        match ParseRow(rows[|rows| - 1], parse)
        case Err(e) => Err(e)
        case Ok(row) => Ok(done + [row])
  }

  /** Once a prefix of the rows fails to parse, all of them fail the same
      way. */
  lemma {:induction false} ParseRowsStopsAtError(rows: seq<seq<string>>, parse: string -> Option<Float>, k: nat)
    requires k <= |rows| && ParseRows(rows[..k], parse).Err?
    ensures ParseRows(rows, parse) == ParseRows(rows[..k], parse)
    decreases |rows|
  {
    if k < |rows| {
      var p := rows[..|rows| - 1];
      assert p[..k] == rows[..k];
      ParseRowsStopsAtError(p, parse, k);
    } else {
      assert rows[..k] == rows;
    }
  }

  // ---------------------------------------------------------------------
  // Columns

  /** Column w: entry w of every row that has one, in row order. */
  function ColumnOf(rows: seq<seq<Float>>, w: nat): (c: seq<Float>)
    ensures |c| <= |rows|
  {
    if |rows| == 0 then []
    else
      var last := rows[|rows| - 1];
      ColumnOf(rows[..|rows| - 1], w) + (if w < |last| then [last[w]] else [])
  }

  /** The length of the longest row: the number of columns. */
  function Width(rows: seq<seq<Float>>): (n: nat)
    ensures forall r :: 0 <= r < |rows| ==> |rows[r]| <= n
    ensures n == 0 || exists r :: 0 <= r < |rows| && |rows[r]| == n
  {
    if |rows| == 0 then 0
    else
      var p := rows[..|rows| - 1];
      var n := Width(p);
      assert forall r :: 0 <= r < |p| ==> p[r] == rows[r];
      if |rows[|rows| - 1]| > n then |rows[|rows| - 1]| else n
  }

  /** The columns `loadtxt` returns for the parsed rows. */
  function Columns(rows: seq<seq<Float>>): (cols: seq<seq<Float>>)
    ensures |cols| == Width(rows)
  {
    seq(Width(rows), w requires 0 <= w < Width(rows) => ColumnOf(rows, w))
  }

  /** Columns of a table of n rows: none is empty, none has more than n
      entries, and none is longer than the one to its left. */
  predicate Shaped(cols: seq<seq<Float>>, n: nat)
  {
    && (forall w :: 0 <= w < |cols| ==> 0 < |cols[w]| <= n)
    && (forall v, w :: 0 <= v <= w < |cols| ==> |cols[w]| <= |cols[v]|)
  }

  /** `if columns.len() <= w { columns.push(Vec::new()) }` followed by
      `columns[w].push(x)`. */
  function Push(cols: seq<seq<Float>>, w: nat, x: Float): (r: seq<seq<Float>>)
    requires w <= |cols|
    ensures |r| == if w < |cols| then |cols| else w + 1
    ensures r[w] == (if w < |cols| then cols[w] else []) + [x]
    ensures forall v :: 0 <= v < |cols| && v != w ==> r[v] == cols[v]
  {
    var c := if |cols| <= w then cols + [[]] else cols;
    c[w := c[w] + [x]]
  }

  /** The columns of a table: none is empty, none has more entries than
      the table has rows, and none is longer than one to its left. */
  lemma ColumnsShape(rows: seq<seq<Float>>)
    ensures Shaped(Columns(rows), |rows|)
  {
    var cols := Columns(rows);
    forall w | 0 <= w < |cols|
      ensures 0 < |cols[w]|
    {
      var r :| 0 <= r < |rows| && |rows[r]| == Width(rows);
      ColumnReached(rows, w, r);
    }
    forall v, w | 0 <= v <= w < |cols|
      ensures |cols[w]| <= |cols[v]|
    {
      ColumnsShrinkFrom(rows, v, w);
    }
  }

  /** A row that reaches position w puts an entry into column w. */
  lemma {:induction false} ColumnReached(rows: seq<seq<Float>>, w: nat, r: nat)
    requires r < |rows| && w < |rows[r]|
    ensures |ColumnOf(rows, w)| > 0
  {
    if r < |rows| - 1 {
      ColumnReached(rows[..|rows| - 1], w, r);
    }
  }

  /** No row reaches column w beyond the width. */
  lemma {:induction false} ColumnBeyondWidth(rows: seq<seq<Float>>, w: nat)
    requires w >= Width(rows)
    ensures ColumnOf(rows, w) == []
  {
    if |rows| > 0 {
      ColumnBeyondWidth(rows[..|rows| - 1], w);
    }
  }

  /** A blank line adds nothing to the columns. */
  lemma BlankRow(rows: seq<seq<Float>>)
    ensures Columns(rows + [[]]) == Columns(rows)
  {
    var rs := rows + [[]];
    assert rs[..|rs| - 1] == rows;
    forall w | 0 <= w < Width(rows)
      ensures Columns(rs)[w] == Columns(rows)[w]
    {
      assert ColumnOf(rs, w) == ColumnOf(rows, w) + [];
    }
  }

  /** Appending word x to the last row pushes x onto the column of its
      position, creating that column when it is new. */
  lemma AppendToRow(rows: seq<seq<Float>>, row: seq<Float>, x: Float)
    ensures |row| <= |Columns(rows + [row])|  // so the push never skips a column
    ensures Columns(rows + [row + [x]]) == Push(Columns(rows + [row]), |row|, x)
  {
    var before, after := rows + [row], rows + [row + [x]];
    assert before[..|before| - 1] == rows && after[..|after| - 1] == rows;
    var cols := Columns(before);
    var w := |row|;
    var pushed := Push(cols, w, x);
    assert |Columns(after)| == |pushed|;
    forall v | 0 <= v < |pushed|
      ensures Columns(after)[v] == pushed[v]
    {
      assert Columns(after)[v] == ColumnOf(rows, v) + (if v < w + 1 then [(row + [x])[v]] else []);
      if v == w {
        if |cols| <= w {
          ColumnBeyondWidth(rows, w);
        }
      } else {
        assert cols[v] == ColumnOf(rows, v) + (if v < w then [row[v]] else []);
      }
    }
  }

  /** A row with an entry in column w + 1 has one in column w, so the
      columns never get longer from left to right. */
  lemma {:induction false} ColumnsShrink(rows: seq<seq<Float>>, w: nat)
    ensures |ColumnOf(rows, w + 1)| <= |ColumnOf(rows, w)|
  {
    if |rows| > 0 {
      ColumnsShrink(rows[..|rows| - 1], w);
    }
  }

  /** Columns never get longer from column v to column w >= v. */
  lemma {:induction false} ColumnsShrinkFrom(rows: seq<seq<Float>>, v: nat, w: nat)
    requires v <= w
    ensures |ColumnOf(rows, w)| <= |ColumnOf(rows, v)|
    decreases w - v
  {
    if v < w {
      ColumnsShrink(rows, v);
      ColumnsShrinkFrom(rows, v + 1, w);
    }
  }

  /** Column w of a table whose rows all reach past w is the table's w-th
      entry of every row. */
  lemma {:induction false} ColumnOfFull(rows: seq<seq<Float>>, w: nat)
    requires forall r :: 0 <= r < |rows| ==> w < |rows[r]|
    ensures |ColumnOf(rows, w)| == |rows|
    ensures forall r :: 0 <= r < |rows| ==> ColumnOf(rows, w)[r] == rows[r][w]
  {
    if |rows| > 0 {
      var p := rows[..|rows| - 1];
      assert forall r :: 0 <= r < |p| ==> p[r] == rows[r];
      ColumnOfFull(p, w);
    }
  }

  /** On a file whose lines all hold n numbers, `loadtxt` transposes the
      table: n columns, each with one entry per line. */
  lemma Transpose(rows: seq<seq<Float>>, n: nat)
    requires |rows| > 0 && forall r :: 0 <= r < |rows| ==> |rows[r]| == n
    ensures |Columns(rows)| == n
    ensures forall w :: 0 <= w < n ==> |Columns(rows)[w]| == |rows|
    ensures forall w, r :: 0 <= w < n && 0 <= r < |rows| ==> Columns(rows)[w][r] == rows[r][w]
  {
    forall w | 0 <= w < n
      ensures |ColumnOf(rows, w)| == |rows|
      ensures forall r :: 0 <= r < |rows| ==> ColumnOf(rows, w)[r] == rows[r][w]
    {
      ColumnOfFull(rows, w);
    }
  }

  // ---------------------------------------------------------------------
  // loadtxt

  /** The words of every line of a text. */
  function WordRows(text: string): (rows: seq<seq<string>>)
    ensures |rows| == |Lines(text)|
  {
    seq(|Lines(text)|, i requires 0 <= i < |Lines(text)| => Words(Lines(text)[i]))
  }

  /** What `loadtxt` returns for the file's contents, or None when the file
      cannot be read. */
  function LoadTxtOf(contents: Option<string>, parse: string -> Option<Float>): (r: Result<seq<seq<Float>>, LoadError>)
    ensures r == Err(Unreadable) <==> contents.None?
    ensures r.Err? && contents.Some? ==> r.error.Unparsable?
    ensures r.Ok? ==> Shaped(r.value, |Lines(contents.value)|)
  {
    if contents.None? then Err(Unreadable)
    else
      match ParseRows(WordRows(contents.value), parse)
      case Err(e) => Err(e)
      case Ok(rows) => ColumnsShape(rows); Ok(Columns(rows))
  }

  /** A file whose lines all hold n words comes back as n columns with one
      entry per line: entry r of column w is word w of line r, parsed. */
  lemma LoadTxtRectangular(text: string, parse: string -> Option<Float>, n: nat)
    requires LoadTxtOf(Some(text), parse).Ok?
    requires |Lines(text)| > 0
    requires forall r :: 0 <= r < |Lines(text)| ==> |Words(Lines(text)[r])| == n
    ensures var cols := LoadTxtOf(Some(text), parse).value;
      && |cols| == n
      && (forall w :: 0 <= w < n ==> |cols[w]| == |Lines(text)|)
      && forall w, r :: 0 <= w < n && 0 <= r < |Lines(text)| ==>
           parse(Words(Lines(text)[r])[w]) == Some(cols[w][r])
  {
    var wordRows := WordRows(text);
    var rows := ParseRows(wordRows, parse).value;
    forall r | 0 <= r < |rows|
      ensures |rows[r]| == n
      ensures forall w :: 0 <= w < n ==> parse(Words(Lines(text)[r])[w]) == Some(rows[r][w])
    {
      assert wordRows[r] == Words(Lines(text)[r]);
      assert ParseRow(wordRows[r], parse) == Ok(rows[r]);
    }
    Transpose(rows, n);
  }

  /** A failed load names a word of the file that does not parse. */
  lemma LoadTxtErrorNamesWord(text: string, parse: string -> Option<Float>)
    requires LoadTxtOf(Some(text), parse).Err?
    ensures exists r, w ::
      && 0 <= r < |Lines(text)| && 0 <= w < |Words(Lines(text)[r])|
      && parse(Words(Lines(text)[r])[w]).None?
      && LoadTxtOf(Some(text), parse).error == Unparsable(Words(Lines(text)[r])[w])
  {
    var wordRows := WordRows(text);
    var r :| 0 <= r < |wordRows| && FailsOnSomeWord(wordRows[r], parse, ParseRows(wordRows, parse).error);
    assert wordRows[r] == Words(Lines(text)[r]);
  }

  /** The inner loop of `loadtxt` over the words of one line: each parsed
      word is pushed onto the column of its position. */
  method PushWords(columns: seq<seq<Float>>, words: seq<string>, parse: string -> Option<Float>, ghost done: seq<seq<Float>>)
    returns (r: Result<seq<seq<Float>>, LoadError>)
    requires columns == Columns(done)
    ensures ParseRow(words, parse).Err? ==> r == Err(ParseRow(words, parse).error)
    ensures ParseRow(words, parse).Ok? ==> r == Ok(Columns(done + [ParseRow(words, parse).value]))
  {
    var cols := columns;
    ghost var row: seq<Float> := [];
    BlankRow(done);
    var w := 0;
    while w < |words|
      invariant w <= |words|
      invariant ParseRow(words[..w], parse) == Ok(row)
      invariant cols == Columns(done + [row])
    {
      assert words[..w + 1][..w] == words[..w];
      assert (done + [row])[|done|] == row;
      ghost var before := cols;
      if |cols| <= w {
        cols := cols + [[]];
      }
      var x := parse(words[w]);
      if x.None? {
        ParseRowStopsAtError(words, parse, w + 1);
        return Err(Unparsable(words[w]));
      }
      AppendToRow(done, row, x.value);
      cols := cols[w := cols[w] + [x.value]];
      assert cols == Push(before, w, x.value);
      row := row + [x.value];
      w := w + 1;
    }
    assert words[..w] == words;
    return Ok(cols);
  }

  /** `loadtxt`: one pass over the lines and their words, pushing each
      parsed word onto the column of its position. */
  method LoadTxt(contents: Option<string>, parse: string -> Option<Float>) returns (r: Result<seq<seq<Float>>, LoadError>)
    ensures r == LoadTxtOf(contents, parse)
  {
    if contents.None? {
      return Err(Unreadable);
    }
    var lines := Lines(contents.value);
    ghost var wordRows := WordRows(contents.value);
    ghost var parsed: seq<seq<Float>> := [];
    var columns: seq<seq<Float>> := [];
    var l := 0;
    while l < |lines|
      invariant l <= |lines|
      invariant ParseRows(wordRows[..l], parse) == Ok(parsed)
      invariant columns == Columns(parsed)
    {
      var words := Words(lines[l]);
      assert words == wordRows[l];
      ParseRowsNext(wordRows, parse, l);
      var pushed := PushWords(columns, words, parse, parsed);
      if pushed.Err? {
        ParseRowsStopsAtError(wordRows, parse, l + 1);
        return pushed;
      }
      columns := pushed.value;
      parsed := parsed + [ParseRow(words, parse).value];
      l := l + 1;
    }
    assert wordRows[..l] == wordRows;
    return Ok(columns);
  }
}
