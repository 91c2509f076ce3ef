/**
  `drawWrappedText`: the greedy word wrap of the speech bubble. The text is
  split on single spaces; each word is appended to the current line with a
  trailing space, and when the measured width of the extended line exceeds
  `maxWidth` (and it is not the first word) the current line is drawn and a
  new one starts `lineHeight` lower. `ctx.measureText(...).width` is the
  parameter `width`; `ctx.fillText` becomes the list of rows drawn.
*/
module Wrap {
  import Text

  /** One `ctx.fillText(line, x, yy)` call. */
  datatype Row = Row(text: string, x: real, y: real)

  /** Each word followed by one space, as the loop builds a line. */
  function Spaced(words: seq<string>): (s: string)
    ensures |words| > 0 ==> |s| > 0
  {
    if words == [] then [] else Spaced(words[..|words| - 1]) + words[|words| - 1] + " "
  }

  /** The words of consecutive lines, in order. */
  function Flatten(groups: seq<seq<string>>): seq<string> {
    if groups == [] then [] else Flatten(groups[..|groups| - 1]) + groups[|groups| - 1]
  }

  /** Everything drawn, row after row. */
  function Concat(texts: seq<string>): string {
    if texts == [] then [] else Concat(texts[..|texts| - 1]) + texts[|texts| - 1]
  }

  function RowTexts(rows: seq<Row>): (texts: seq<string>)
    ensures |texts| == |rows| && forall k :: 0 <= k < |rows| ==> texts[k] == rows[k].text
  {
    seq(|rows|, k requires 0 <= k < |rows| => rows[k].text)
  }

  /** The `y` of row `k`: `yy` grows by `lineHeight` for every row drawn before it. */
  function RowY(y: real, lineHeight: real, k: nat): real {
    y + k as real * lineHeight
  }

  lemma RowYStep(y: real, lineHeight: real, k: nat)
    ensures RowY(y, lineHeight, k + 1) == RowY(y, lineHeight, k) + lineHeight
  {
    assert (k + 1) as real * lineHeight == k as real * lineHeight + lineHeight;
  }

  lemma SpacedSnoc(words: seq<string>, w: string)
    ensures Spaced(words + [w]) == Spaced(words) + w + " "
  {
    assert (words + [w])[..|words|] == words;
  }

  lemma FlattenSnoc(groups: seq<seq<string>>, g: seq<string>)
    ensures Flatten(groups + [g]) == Flatten(groups) + g
  {
    assert (groups + [g])[..|groups|] == groups;
  }

  /** A spaced line of words is the words joined by spaces, plus the trailing space. */
  lemma {:induction false} SpacedIsJoin(words: seq<string>)
    requires |words| >= 1
    ensures Spaced(words) == Text.Join(words, ' ') + " "
    decreases |words|
  {
    if |words| > 1 {
      var init, last := words[..|words| - 1], words[|words| - 1];
      SpacedIsJoin(init);
      Text.JoinSnoc(init, ' ', last);
      assert init + [last] == words;
    }
  }

  /** Drawing the lines of each group one after another spells the spaced words of all groups. */
  lemma {:induction false} ConcatSpaced(groups: seq<seq<string>>)
    ensures Concat(seq(|groups|, k requires 0 <= k < |groups| => Spaced(groups[k]))) == Spaced(Flatten(groups))
    decreases |groups|
  {
    if groups != [] {
      var init, last := groups[..|groups| - 1], groups[|groups| - 1];
      var texts := seq(|groups|, k requires 0 <= k < |groups| => Spaced(groups[k]));
      assert texts[..|init|] == seq(|init|, k requires 0 <= k < |init| => Spaced(init[k]));
      ConcatSpaced(init);
      SpacedAppend(Flatten(init), last);
    }
  }

  /** Spacing two runs of words is spacing their concatenation. */
  lemma {:induction false} SpacedAppend(a: seq<string>, b: seq<string>)
    ensures Spaced(a) + Spaced(b) == Spaced(a + b)
    decreases |b|
  {
    if b == [] {
      assert a + b == a;
    } else {
      var init, last := b[..|b| - 1], b[|b| - 1];
      assert init + [last] == b;
      assert a + b == (a + init) + [last];
      calc {
        Spaced(a + b);
        { SpacedSnoc(a + init, last); }
        Spaced(a + init) + last + " ";
        { SpacedAppend(a, init); }
        Spaced(a) + Spaced(init) + last + " ";
        { SpacedSnoc(init, last); }
        Spaced(a) + Spaced(b);
      }
    }
  }

  /** A spaced line starts with its first word and a space. */
  lemma {:induction false} SpacedStartsWith(words: seq<string>)
    requires |words| >= 1
    ensures words[0] + " " <= Spaced(words)
    decreases |words|
  {
    if |words| > 1 {
      SpacedStartsWith(words[..|words| - 1]);
    }
  }

  /**
    Row `k` of a wrap: it shows the spaced words of group `k` at
    `y + k * lineHeight`, the group holds at least one word, and the row fits
    in `maxWidth` or holds a single word.
  */
  ghost predicate RowOk(rows: seq<Row>, groups: seq<seq<string>>, k: int, x: real, y: real, lineHeight: real,
                        maxWidth: real, width: string -> real)
  {
    && 0 <= k < |rows| && k < |groups|
    && rows[k] == Row(Spaced(groups[k]), x, RowY(y, lineHeight, k))
    && groups[k] != []
    && (width(rows[k].text) <= maxWidth || |groups[k]| == 1)
  }

  /** A row was ended because the first word of the next group did not fit on it. */
  ghost predicate Breaks(r: Row, next: seq<string>, maxWidth: real, width: string -> real) {
    next != [] && width(r.text + next[0] + " ") > maxWidth
  }

  /** Row `k` was ended by the first word of row `k + 1`. */
  ghost predicate BreaksAfter(rows: seq<Row>, groups: seq<seq<string>>, k: int, maxWidth: real, width: string -> real) {
    0 <= k && k + 1 < |groups| && k < |rows| && Breaks(rows[k], groups[k + 1], maxWidth, width)
  }

  /** What the rows drawn so far satisfy: every row is well formed, and every row but the last was ended by its successor. */
  ghost predicate Drawn(rows: seq<Row>, groups: seq<seq<string>>, x: real, y: real, lineHeight: real,
                        maxWidth: real, width: string -> real)
  {
    && |rows| == |groups|
    && (forall k :: 0 <= k < |rows| ==> RowOk(rows, groups, k, x, y, lineHeight, maxWidth, width))
    && (forall k :: 0 <= k < |rows| - 1 ==> BreaksAfter(rows, groups, k, maxWidth, width))
  }

  /**
    Each drawn row, spelled out: its text and position, fits-or-one-word,
    and the greedy choice (the next row's first word would have overflowed it).
  */
  lemma DrawnRow(rows: seq<Row>, groups: seq<seq<string>>, x: real, y: real, lineHeight: real,
                 maxWidth: real, width: string -> real, k: nat)
    requires Drawn(rows, groups, x, y, lineHeight, maxWidth, width) && k < |rows|
    ensures rows[k] == Row(Spaced(groups[k]), x, y + k as real * lineHeight) && groups[k] != []
    ensures width(rows[k].text) <= maxWidth || |groups[k]| == 1
    ensures k + 1 < |rows| ==> groups[k + 1] != [] && width(rows[k].text + groups[k + 1][0] + " ") > maxWidth
  {
    assert RowOk(rows, groups, k, x, y, lineHeight, maxWidth, width);
    if k + 1 < |rows| {
      assert BreaksAfter(rows, groups, k, maxWidth, width);
    }
  }

  /** The rows already drawn stay well formed when one more is drawn. */
  lemma RowsOkSnoc(rows: seq<Row>, groups: seq<seq<string>>, x: real, y: real, lineHeight: real,
                   maxWidth: real, width: string -> real, g: seq<string>)
    requires |rows| == |groups|
    requires forall k :: 0 <= k < |rows| ==> RowOk(rows, groups, k, x, y, lineHeight, maxWidth, width)
    requires g != [] && (width(Spaced(g)) <= maxWidth || |g| == 1)
    ensures forall k :: 0 <= k < |rows| + 1 ==>
      RowOk(rows + [Row(Spaced(g), x, RowY(y, lineHeight, |rows|))], groups + [g], k, x, y, lineHeight, maxWidth, width)
  {
    var r := Row(Spaced(g), x, RowY(y, lineHeight, |rows|));
    forall k | 0 <= k < |rows| + 1
      ensures RowOk(rows + [r], groups + [g], k, x, y, lineHeight, maxWidth, width)
    {
      if k < |rows| {
        RowOkAppend(rows, groups, x, y, lineHeight, maxWidth, width, r, g, k);
      } else {
        assert (rows + [r])[k] == r && (groups + [g])[k] == g;
      }
    }
  }

  lemma RowOkAppend(rows: seq<Row>, groups: seq<seq<string>>, x: real, y: real, lineHeight: real,
                    maxWidth: real, width: string -> real, r: Row, g: seq<string>, k: int)
    requires RowOk(rows, groups, k, x, y, lineHeight, maxWidth, width)
    ensures RowOk(rows + [r], groups + [g], k, x, y, lineHeight, maxWidth, width)
  {
    assert (rows + [r])[k] == rows[k] && (groups + [g])[k] == groups[k];
  }

  /** The rows already ended stay ended, and the last one is now ended by the new row. */
  lemma BreaksSnoc(rows: seq<Row>, groups: seq<seq<string>>, maxWidth: real, width: string -> real, r: Row, g: seq<string>)
    requires |rows| == |groups|
    requires forall k :: 0 <= k < |rows| - 1 ==> BreaksAfter(rows, groups, k, maxWidth, width)
    requires |rows| > 0 ==> Breaks(rows[|rows| - 1], g, maxWidth, width)
    ensures forall k :: 0 <= k < |rows| ==> BreaksAfter(rows + [r], groups + [g], k, maxWidth, width)
  {
    var rows', groups' := rows + [r], groups + [g];
    forall k | 0 <= k < |rows|
      ensures BreaksAfter(rows', groups', k, maxWidth, width)
    {
      assert rows'[k] == rows[k];
      if k < |rows| - 1 {
        assert BreaksAfter(rows, groups, k, maxWidth, width);
        assert groups'[k + 1] == groups[k + 1];
      } else {
        assert groups'[k + 1] == g;
      }
    }
  }

  /** Drawing one more row that fits (or holds one word) and that the previous row could not take. */
  lemma DrawnSnoc(rows: seq<Row>, groups: seq<seq<string>>, x: real, y: real, lineHeight: real,
                  maxWidth: real, width: string -> real, g: seq<string>)
    requires Drawn(rows, groups, x, y, lineHeight, maxWidth, width)
    requires g != [] && (width(Spaced(g)) <= maxWidth || |g| == 1)
    requires |rows| > 0 ==> Breaks(rows[|rows| - 1], g, maxWidth, width)
    ensures Drawn(rows + [Row(Spaced(g), x, RowY(y, lineHeight, |rows|))], groups + [g], x, y, lineHeight, maxWidth, width)
  {
    RowsOkSnoc(rows, groups, x, y, lineHeight, maxWidth, width, g);
    BreaksSnoc(rows, groups, maxWidth, width, Row(Spaced(g), x, RowY(y, lineHeight, |rows|)), g);
  }

  /**
    The state of the wrap loop after `n` words: `rows` drawn, and the
    current line `line` holding the words `cur`, to be drawn at `yy`.
  */
  ghost predicate Wrapping(words: seq<string>, n: nat, rows: seq<Row>, groups: seq<seq<string>>, cur: seq<string>,
                           line: string, yy: real, x: real, y: real, lineHeight: real,
                           maxWidth: real, width: string -> real)
  {
    && n <= |words|
    && Drawn(rows, groups, x, y, lineHeight, maxWidth, width)
    && Flatten(groups) + cur == words[..n]
    && line == Spaced(cur) && yy == RowY(y, lineHeight, |rows|)
    && (n == 0 <==> cur == [])
    && (n == 0 ==> rows == [])
    && (cur != [] ==> width(line) <= maxWidth || |cur| == 1)
    && (|rows| > 0 ==> Breaks(rows[|rows| - 1], cur, maxWidth, width))
  }

  /** The next word does not fit on a non-empty line: the line is drawn and the word starts a new one. */
  lemma BreakStep(words: seq<string>, n: nat, rows: seq<Row>, groups: seq<seq<string>>, cur: seq<string>,
                  line: string, yy: real, x: real, y: real, lineHeight: real, maxWidth: real, width: string -> real)
    requires Wrapping(words, n, rows, groups, cur, line, yy, x, y, lineHeight, maxWidth, width)
    requires n < |words| && n > 0 && width(line + words[n] + " ") > maxWidth
    ensures Wrapping(words, n + 1, rows + [Row(line, x, yy)], groups + [cur], [words[n]],
                     words[n] + " ", yy + lineHeight, x, y, lineHeight, maxWidth, width)
  {
    assert words[..n + 1] == words[..n] + [words[n]];
    DrawnSnoc(rows, groups, x, y, lineHeight, maxWidth, width, cur);
    FlattenSnoc(groups, cur);
    RowYStep(y, lineHeight, |rows|);
    SpacedSnoc([], words[n]);
    assert [] + [words[n]] == [words[n]];
  }

  /** The next word fits, or the line is empty: the word joins the current line. */
  lemma ExtendStep(words: seq<string>, n: nat, rows: seq<Row>, groups: seq<seq<string>>, cur: seq<string>,
                   line: string, yy: real, x: real, y: real, lineHeight: real, maxWidth: real, width: string -> real)
    requires Wrapping(words, n, rows, groups, cur, line, yy, x, y, lineHeight, maxWidth, width)
    requires n < |words| && !(width(line + words[n] + " ") > maxWidth && n > 0)
    ensures Wrapping(words, n + 1, rows, groups, cur + [words[n]],
                     line + words[n] + " ", yy, x, y, lineHeight, maxWidth, width)
  {
    assert words[..n + 1] == words[..n] + [words[n]];
    SpacedSnoc(cur, words[n]);
    if cur != [] {
      assert (cur + [words[n]])[0] == cur[0];
    }
  }

  /** Before the first word nothing is drawn and the line is empty. */
  lemma StartWrapping(words: seq<string>, x: real, y: real, lineHeight: real, maxWidth: real, width: string -> real)
    ensures Wrapping(words, 0, [], [], [], "", y, x, y, lineHeight, maxWidth, width)
  {
    assert RowY(y, lineHeight, 0) == y;
  }

  /** After the last word the pending line is drawn as the final row. */
  lemma FinishWrapping(words: seq<string>, rows: seq<Row>, groups: seq<seq<string>>, cur: seq<string>,
                       line: string, yy: real, x: real, y: real, lineHeight: real, maxWidth: real, width: string -> real)
    requires |words| >= 1
    requires Wrapping(words, |words|, rows, groups, cur, line, yy, x, y, lineHeight, maxWidth, width)
    ensures Drawn(rows + [Row(line, x, yy)], groups + [cur], x, y, lineHeight, maxWidth, width)
    ensures Flatten(groups + [cur]) == words
  {
    assert words[..|words|] == words;
    DrawnSnoc(rows, groups, x, y, lineHeight, maxWidth, width, cur);
    FlattenSnoc(groups, cur);
  }

  /**
    `drawWrappedText(text, x, y, maxWidth, lineHeight)`: the rows drawn, in
    order. The ghost `groups` are the words on each row.
  */
  method WrapText(text: string, x: real, y: real, maxWidth: real, lineHeight: real, width: string -> real)
    returns (rows: seq<Row>, ghost groups: seq<seq<string>>)
    ensures |rows| >= 1 && Drawn(rows, groups, x, y, lineHeight, maxWidth, width)
    ensures Flatten(groups) == Text.Split(text, ' ')
  {
    var words := Text.Split(text, ' ');
    var line := "";
    var yy := y;
    rows, groups := [], [];
    ghost var cur: seq<string> := [];
    var n := 0;
    StartWrapping(words, x, y, lineHeight, maxWidth, width);
    while n < |words|
      invariant Wrapping(words, n, rows, groups, cur, line, yy, x, y, lineHeight, maxWidth, width)
    {
      var testLine := line + words[n] + " ";
      if width(testLine) > maxWidth && n > 0 {
        BreakStep(words, n, rows, groups, cur, line, yy, x, y, lineHeight, maxWidth, width);
        rows := rows + [Row(line, x, yy)];
        groups := groups + [cur];
        line := words[n] + " ";
        cur := [words[n]];
        yy := yy + lineHeight;
      } else {
        ExtendStep(words, n, rows, groups, cur, line, yy, x, y, lineHeight, maxWidth, width);
        line := testLine;
        cur := cur + [words[n]];
      }
      n := n + 1;
    }
    FinishWrapping(words, rows, groups, cur, line, yy, x, y, lineHeight, maxWidth, width);
    rows := rows + [Row(line, x, yy)];
    groups := groups + [cur];
  }

  /**
    No word is lost, split or reordered: the rows drawn spell the text with
    one trailing space, and the first row starts with the first word.
  */
  lemma WrapSpellsText(text: string, rows: seq<Row>, groups: seq<seq<string>>, x: real, y: real, lineHeight: real,
                       maxWidth: real, width: string -> real)
    requires |rows| >= 1 && Drawn(rows, groups, x, y, lineHeight, maxWidth, width)
    requires Flatten(groups) == Text.Split(text, ' ')
    ensures Concat(RowTexts(rows)) == text + " "
    ensures Text.Split(text, ' ')[0] + " " <= rows[0].text
  {
    var words := Text.Split(text, ' ');
    forall k | 0 <= k < |groups|
      ensures RowTexts(rows)[k] == Spaced(groups[k])
    {
      assert RowOk(rows, groups, k, x, y, lineHeight, maxWidth, width);
    }
    assert RowTexts(rows) == seq(|groups|, k requires 0 <= k < |groups| => Spaced(groups[k]));
    ConcatSpaced(groups);
    SpacedIsJoin(words);
    assert RowOk(rows, groups, 0, x, y, lineHeight, maxWidth, width);
    FlattenHead(groups);
    SpacedStartsWith(groups[0]);
  }

  /** The first word of the flattened groups is the first word of the first group. */
  lemma {:induction false} FlattenHead(groups: seq<seq<string>>)
    requires |groups| >= 1 && groups[0] != []
    ensures |Flatten(groups)| >= 1 && Flatten(groups)[0] == groups[0][0]
    decreases |groups|
  {
    if |groups| > 1 {
      FlattenHead(groups[..|groups| - 1]);
    }
  }
}
