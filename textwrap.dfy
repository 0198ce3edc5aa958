/** Word splitting and greedy line breaking, as `wrapText` in
    src/generate.ts does them: the label is split on runs of white space
    (`text.split(/\s+/)`), then words are added to the current line while
    the line, measured with a trailing space, fits the width; the first
    word always goes on the first line. */
module TextWrap {

  /** The characters the `\s` class of a JavaScript regular expression
      matches: the ASCII white space, the no-break space, the Unicode space
      separators, the line and paragraph separators and the byte order
      mark. */
  predicate IsSpace(c: char)
  {
    c == '\t' || c == '\n' || c == '\U{000B}' || c == '\U{000C}' || c == '\r' || c == ' ' ||
    c == '\U{00A0}' || c == '\U{1680}' || ('\U{2000}' <= c <= '\U{200A}') ||
    c == '\U{2028}' || c == '\U{2029}' || c == '\U{202F}' || c == '\U{205F}' || c == '\U{3000}' || c == '\U{FEFF}'
  }

  predicate NoSpace(s: string)
  {
    forall i :: 0 <= i < |s| ==> !IsSpace(s[i])
  }

  /** Drops a leading run of white space. */
  function DropSpaces(s: string): (r: string)
    ensures |r| <= |s| && r == s[|s| - |r|..]
    ensures r == "" || !IsSpace(r[0])
  {
    if s != "" && IsSpace(s[0]) then DropSpaces(s[1..]) else s
  }

  /** `s.split(/\s+/)`: the pieces between maximal runs of white space.
      A leading or trailing run gives an empty first or last piece, and
      the empty string gives one empty piece. */
  function Split(s: string): (words: seq<string>)
    ensures |words| >= 1
    decreases |s|
  {
    if s == "" then [""]
    else if IsSpace(s[0]) then [""] + Split(DropSpaces(s))
    else
      var rest := Split(s[1..]);
      [[s[0]] + rest[0]] + rest[1..]
  }

  /** Pieces joined with single spaces. */
  function Join(words: seq<string>): string
    requires |words| >= 1
  {
    if |words| == 1 then words[0] else words[0] + " " + Join(words[1..])
  }

  /** The text with every run of white space replaced by one space. */
  function Collapse(s: string): string
    decreases |s|
  {
    if s == "" then ""
    else if IsSpace(s[0]) then " " + Collapse(DropSpaces(s))
    else [s[0]] + Collapse(s[1..])
  }

  /** Splitting loses only the white space: joining the pieces again gives
      the text with each run of white space collapsed to one space. */
  lemma {:induction false} JoinSplit(s: string)
    ensures Join(Split(s)) == Collapse(s)
    decreases |s|
  {
    if s == "" {
    } else if IsSpace(s[0]) {
      JoinSplit(DropSpaces(s));
    } else {
      var rest := Split(s[1..]);
      JoinSplit(s[1..]);
      JoinCons(s[0], rest[0], rest[1..]);
      assert [rest[0]] + rest[1..] == rest;
    }
  }

  lemma JoinCons(c: char, w: string, words: seq<string>)
    ensures Join([[c] + w] + words) == [c] + Join([w] + words)
  {
    if words != [] {
      assert ([[c] + w] + words)[1..] == words;
      assert ([w] + words)[1..] == words;
      ConsAssoc([c], w, " " + Join(words));
    }
  }

  lemma ConsAssoc(a: string, b: string, c: string)
    ensures a + b + c == a + (b + c)
  {
  }

  /** What `Split` produces: pieces without white space, only the first
      and last of which may be empty. */
  predicate Pieces(words: seq<string>)
  {
    |words| >= 1 &&
    (forall i :: 0 <= i < |words| ==> NoSpace(words[i])) &&
    (forall i :: 0 < i < |words| - 1 ==> words[i] != "")
  }

  lemma SplitPieces(s: string)
    ensures Pieces(Split(s))
    decreases |s|
  {
    if s == "" {
    } else if IsSpace(s[0]) {
      SplitPieces(DropSpaces(s));
    } else {
      SplitPieces(s[1..]);
    }
  }

  /** Splitting is the inverse of joining: any list of pieces is what the
      split of its join returns. */
  lemma {:induction false} SplitJoin(words: seq<string>)
    requires Pieces(words)
    ensures Split(Join(words)) == words
    decreases |words|
  {
    if |words| == 1 {
      SplitWord(words[0]);
    } else {
      var rest := Join(words[1..]);
      assert Pieces(words[1..]);
      SplitJoin(words[1..]);
      JoinTailStart(words);
      ConsAssoc(words[0], " ", rest);
      SplitPrefix(words[0], " " + rest);
      SplitSpace(rest);
      assert words[0] + "" == words[0];
      assert [words[0]] + words[1..] == words;
    }
  }

  /** The join of the pieces after the first starts with a piece's first
      character, so not with white space. */
  lemma JoinTailStart(words: seq<string>)
    requires Pieces(words) && |words| >= 2
    ensures var rest := Join(words[1..]); rest == "" || !IsSpace(rest[0])
  {
    var rest := Join(words[1..]);
    assert NoSpace(words[1]);
    if |words| > 2 {
      assert words[1] != "";
      assert words[1..][1..] == words[2..];
      ConsAssoc(words[1], " ", Join(words[2..]));
      assert rest[0] == words[1][0];
    } else {
      assert words[1..] == [words[1]];
    }
  }

  /** A single space before text that does not start with white space
      splits off one empty piece. */
  lemma SplitSpace(rest: string)
    requires rest == "" || !IsSpace(rest[0])
    ensures Split(" " + rest) == [""] + Split(rest)
  {
    var s := " " + rest;
    assert s[1..] == rest;
    DropNone(rest);
    SplitAtSpace(s);
  }

  lemma DropNone(s: string)
    requires s == "" || !IsSpace(s[0])
    ensures DropSpaces(s) == s
  {
  }

  lemma SplitAtSpace(s: string)
    requires s != "" && IsSpace(s[0])
    ensures DropSpaces(s) == DropSpaces(s[1..]) && Split(s) == [""] + Split(DropSpaces(s))
  {
  }

  /** A word with no white space splits into itself. */
  lemma {:induction false} SplitWord(w: string)
    requires NoSpace(w)
    ensures Split(w) == [w]
    decreases |w|
  {
    if w != "" {
      SplitWord(w[1..]);
      assert [w[0]] + w[1..] == w;
    }
  }

  /** A word followed by white space (or nothing) becomes the head of the
      first piece. */
  lemma {:induction false} SplitPrefix(w: string, rest: string)
    requires NoSpace(w) && (rest == "" || IsSpace(rest[0]))
    ensures Split(w + rest) == [w + Split(rest)[0]] + Split(rest)[1..]
    decreases |w|
  {
    if w == "" {
      assert w + rest == rest;
    } else {
      var s := w + rest;
      assert s[0] == w[0] && s[1..] == w[1..] + rest;
      assert NoSpace(w[1..]) by {
        forall i | 0 <= i < |w[1..]| ensures !IsSpace(w[1..][i]) {
          assert w[1..][i] == w[i + 1];
        }
      }
      SplitPrefix(w[1..], rest);
      SplitAtWord(s);
      ConsAssoc([w[0]], w[1..], Split(rest)[0]);
      assert [w[0]] + w[1..] == w;
    }
  }

  lemma SplitAtWord(s: string)
    requires s != "" && !IsSpace(s[0])
    ensures Split(s) == [[s[0]] + Split(s[1..])[0]] + Split(s[1..])[1..]
  {
  }

  // ---------------------------------------------------------------------
  // Greedy line breaking
  // ---------------------------------------------------------------------

  /** A line handed to the callback, with its offset below the first. */
  datatype Line = Line(text: string, y: real)

  /** The loop variables of `wrapText`: the lines already handed out, the
      current line, whether no word has been seen yet, and the current
      offset. */
  datatype WrapState = WrapState(emitted: seq<Line>, line: string, first: bool, y: real)

  const Start := WrapState([], "", true, 0.0)

  /** One word: the attempt is the line plus the word plus a space; when it
      is wider than `w` and this is not the first word, the line is handed
      out and the word starts the next one, a line height further down. */
  function Step(st: WrapState, word: string, measure: (string, string) -> real, font: string, w: real, lineHeight: real): WrapState
  {
    var attempt := st.line + word + " ";
    if measure(font, attempt) > w && !st.first then
      WrapState(st.emitted + [Line(st.line, st.y)], word + " ", false, st.y + lineHeight)
    else
      WrapState(st.emitted, attempt, false, st.y)
  }

  /** The state after the loop has taken every word of `words`. */
  function Scan(words: seq<string>, measure: (string, string) -> real, font: string, w: real, lineHeight: real): WrapState
  {
    if words == [] then Start
    else Step(Scan(words[..|words| - 1], measure, font, w, lineHeight), words[|words| - 1], measure, font, w, lineHeight)
  }

  /** Taking one more word is one more `Step`. */
  lemma ScanNext(words: seq<string>, i: nat, measure: (string, string) -> real, font: string, w: real, lineHeight: real)
    requires i < |words|
    ensures Scan(words[..i + 1], measure, font, w, lineHeight) ==
      Step(Scan(words[..i], measure, font, w, lineHeight), words[i], measure, font, w, lineHeight)
  {
    assert words[..i + 1][..i] == words[..i];
  }

  /** Every line `wrapText` hands to its callback, in order: the lines
      broken off in the loop and the last line when it is not empty. */
  function Wrap(words: seq<string>, measure: (string, string) -> real, font: string, w: real, lineHeight: real): seq<Line>
  {
    var st := Scan(words, measure, font, w, lineHeight);
    st.emitted + (if st.line != "" then [Line(st.line, st.y)] else [])
  }

  /** The texts of some lines, end to end. */
  function Texts(lines: seq<Line>): string
  {
    if lines == [] then "" else Texts(lines[..|lines| - 1]) + lines[|lines| - 1].text
  }

  /** Each word followed by one space, end to end. */
  function Spaced(words: seq<string>): string
  {
    if words == [] then "" else Spaced(words[..|words| - 1]) + words[|words| - 1] + " "
  }

  /** What the loop keeps: the lines handed out plus the current line are
      exactly the words so far, each with its space; the k-th line handed
      out is k line heights down and the current line is next; a line wider
      than `w` holds a single word; and the current line is empty only
      before the first word. */
  predicate Kept(st: WrapState, words: seq<string>, measure: (string, string) -> real, font: string, w: real, lineHeight: real)
  {
    KeptText(st, words) && KeptOffsets(st, lineHeight) && KeptNarrow(st, words, measure, font, w) && KeptShape(st, words)
  }

  predicate KeptText(st: WrapState, words: seq<string>)
  {
    Texts(st.emitted) + st.line == Spaced(words)
  }

  predicate KeptOffsets(st: WrapState, lineHeight: real)
  {
    (forall k :: 0 <= k < |st.emitted| ==> st.emitted[k].y == k as real * lineHeight) &&
    st.y == |st.emitted| as real * lineHeight
  }

  predicate KeptNarrow(st: WrapState, words: seq<string>, measure: (string, string) -> real, font: string, w: real)
  {
    (forall k :: 0 <= k < |st.emitted| ==> Narrow(st.emitted[k].text, words, measure, font, w)) &&
    (words != [] ==> Narrow(st.line, words, measure, font, w))
  }

  predicate KeptShape(st: WrapState, words: seq<string>)
  {
    (st.first <==> words == []) &&
    (words == [] ==> st.line == "" && st.emitted == []) &&
    (words != [] ==> st.line != "" && st.line[|st.line| - 1] == ' ' && |st.emitted| < |words|)
  }

  /** A line fits the width, or holds one word of `words` alone. */
  predicate Narrow(line: string, words: seq<string>, measure: (string, string) -> real, font: string, w: real)
  {
    measure(font, line) <= w || exists j :: 0 <= j < |words| && line == words[j] + " "
  }

  lemma {:induction false} ScanKept(words: seq<string>, measure: (string, string) -> real, font: string, w: real, lineHeight: real)
    ensures Kept(Scan(words, measure, font, w, lineHeight), words, measure, font, w, lineHeight)
    decreases |words|
  {
    if words != [] {
      var init, word := words[..|words| - 1], words[|words| - 1];
      assert words == init + [word];
      ScanKept(init, measure, font, w, lineHeight);
      StepKept(Scan(init, measure, font, w, lineHeight), init, word, measure, font, w, lineHeight);
    }
  }

  /** One step of the loop keeps `Kept`. */
  lemma StepKept(st: WrapState, init: seq<string>, word: string, measure: (string, string) -> real, font: string, w: real, lineHeight: real)
    requires Kept(st, init, measure, font, w, lineHeight)
    ensures Kept(Step(st, word, measure, font, w, lineHeight), init + [word], measure, font, w, lineHeight)
  {
    StepText(st, init, word, measure, font, w, lineHeight);
    StepOffsets(st, word, measure, font, w, lineHeight);
    StepNarrow(st, init, word, measure, font, w, lineHeight);
  }

  lemma StepText(st: WrapState, init: seq<string>, word: string, measure: (string, string) -> real, font: string, w: real, lineHeight: real)
    requires KeptText(st, init)
    ensures KeptText(Step(st, word, measure, font, w, lineHeight), init + [word])
  {
    var words := init + [word];
    var st' := Step(st, word, measure, font, w, lineHeight);
    assert words[..|words| - 1] == init;
    if measure(font, st.line + word + " ") > w && !st.first {
      assert st'.emitted[..|st'.emitted| - 1] == st.emitted;
    }
  }

  lemma StepOffsets(st: WrapState, word: string, measure: (string, string) -> real, font: string, w: real, lineHeight: real)
    requires KeptOffsets(st, lineHeight)
    ensures KeptOffsets(Step(st, word, measure, font, w, lineHeight), lineHeight)
  {
  }

  lemma StepNarrow(st: WrapState, init: seq<string>, word: string, measure: (string, string) -> real, font: string, w: real, lineHeight: real)
    requires KeptNarrow(st, init, measure, font, w) && KeptShape(st, init)
    ensures KeptNarrow(Step(st, word, measure, font, w, lineHeight), init + [word], measure, font, w)
    ensures KeptShape(Step(st, word, measure, font, w, lineHeight), init + [word])
  {
    var words := init + [word];
    var st' := Step(st, word, measure, font, w, lineHeight);
    if init != [] {
      NarrowGrows(st.line, init, word, measure, font, w);
    }
    forall k | 0 <= k < |st.emitted| ensures Narrow(st.emitted[k].text, words, measure, font, w) {
      NarrowGrows(st.emitted[k].text, init, word, measure, font, w);
    }
    assert Narrow(word + " ", words, measure, font, w) by {
      assert words[|words| - 1] == word;
    }
    if !(measure(font, st.line + word + " ") > w && !st.first) && init == [] {
      assert st'.line == word + " ";
    }
  }

  lemma NarrowGrows(line: string, words: seq<string>, word: string, measure: (string, string) -> real, font: string, w: real)
    requires Narrow(line, words, measure, font, w)
    ensures Narrow(line, words + [word], measure, font, w)
  {
    if measure(font, line) > w {
      var j :| 0 <= j < |words| && line == words[j] + " ";
      assert (words + [word])[j] == words[j];
    }
  }

  /** Wrapping keeps every word, in order, each followed by one space:
      the lines end to end are the words end to end. */
  lemma WrapKeepsText(words: seq<string>, measure: (string, string) -> real, font: string, w: real, lineHeight: real)
    ensures Texts(Wrap(words, measure, font, w, lineHeight)) == Spaced(words)
  {
    var st := Scan(words, measure, font, w, lineHeight);
    ScanKept(words, measure, font, w, lineHeight);
    if st.line != "" {
      var lines := Wrap(words, measure, font, w, lineHeight);
      assert lines[..|lines| - 1] == st.emitted;
    }
  }

  /** The k-th line is drawn k line heights below the first. */
  lemma WrapOffsets(words: seq<string>, measure: (string, string) -> real, font: string, w: real, lineHeight: real)
    ensures var lines := Wrap(words, measure, font, w, lineHeight);
      forall k :: 0 <= k < |lines| ==> lines[k].y == k as real * lineHeight
  {
    var st := Scan(words, measure, font, w, lineHeight);
    ScanKept(words, measure, font, w, lineHeight);
    var lines := Wrap(words, measure, font, w, lineHeight);
    forall k | 0 <= k < |lines| ensures lines[k].y == k as real * lineHeight {
      if k < |st.emitted| {
        assert lines[k] == st.emitted[k];
      }
    }
  }

  /** The first line is at offset 0 and each further line one line height
      below the one before. */
  lemma WrapSpacing(words: seq<string>, measure: (string, string) -> real, font: string, w: real, lineHeight: real)
    ensures var lines := Wrap(words, measure, font, w, lineHeight);
      (|lines| > 0 ==> lines[0].y == 0.0) &&
      forall k :: 0 < k < |lines| ==> lines[k].y == lines[k - 1].y + lineHeight
  {
    var lines := Wrap(words, measure, font, w, lineHeight);
    WrapOffsets(words, measure, font, w, lineHeight);
    forall k | 0 < k < |lines| ensures lines[k].y == lines[k - 1].y + lineHeight {
      assert lines[k].y == k as real * lineHeight;
      assert lines[k - 1].y == (k - 1) as real * lineHeight;
    }
  }

  /** Every line fits the width unless it holds a single word. */
  lemma WrapFits(words: seq<string>, measure: (string, string) -> real, font: string, w: real, lineHeight: real)
    ensures var lines := Wrap(words, measure, font, w, lineHeight);
      forall k :: 0 <= k < |lines| ==>
        measure(font, lines[k].text) <= w || exists j :: 0 <= j < |words| && lines[k].text == words[j] + " "
  {
    var st := Scan(words, measure, font, w, lineHeight);
    ScanKept(words, measure, font, w, lineHeight);
    var lines := Wrap(words, measure, font, w, lineHeight);
    forall k | 0 <= k < |lines| ensures Narrow(lines[k].text, words, measure, font, w) {
      if k < |st.emitted| {
        assert lines[k] == st.emitted[k];
      }
    }
  }

  /** There is at least one line when there is at least one word, and
      never more lines than words. */
  lemma WrapCount(words: seq<string>, measure: (string, string) -> real, font: string, w: real, lineHeight: real)
    ensures var lines := Wrap(words, measure, font, w, lineHeight);
      (words != [] <==> |lines| >= 1) && |lines| <= |words|
  {
    ScanKept(words, measure, font, w, lineHeight);
  }

  /** The first word is never broken off, however wide: it is at the start
      of the first line. */
  lemma FirstWordFirst(words: seq<string>, measure: (string, string) -> real, font: string, w: real, lineHeight: real)
    requires words != []
    ensures var lines := Wrap(words, measure, font, w, lineHeight);
      |lines| >= 1 && words[0] + " " <= lines[0].text
  {
    WrapCount(words, measure, font, w, lineHeight);
    FirstWordKept(words, measure, font, w, lineHeight);
    var st := Scan(words, measure, font, w, lineHeight);
    var lines := Wrap(words, measure, font, w, lineHeight);
    if st.emitted == [] {
      assert lines[0] == Line(st.line, st.y);
    } else {
      assert lines[0] == st.emitted[0];
    }
  }

  lemma {:induction false} FirstWordKept(words: seq<string>, measure: (string, string) -> real, font: string, w: real, lineHeight: real)
    requires words != []
    ensures var st := Scan(words, measure, font, w, lineHeight);
      if st.emitted == [] then words[0] + " " <= st.line else words[0] + " " <= st.emitted[0].text
    decreases |words|
  {
    var init := words[..|words| - 1];
    if init == [] {
      assert Scan(init, measure, font, w, lineHeight) == Start;
    } else {
      assert init[0] == words[0];
      FirstWordKept(init, measure, font, w, lineHeight);
      var st := Scan(init, measure, font, w, lineHeight);
      ScanKept(init, measure, font, w, lineHeight);
      var word := words[|words| - 1];
      if st.emitted == [] && !(measure(font, st.line + word + " ") > w && !st.first) {
        assert st.line + word + " " == st.line + (word + " ");
      }
    }
  }
}
