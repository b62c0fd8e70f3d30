/** The overlapping text splitter: windows that end at a blank line or a space, and overlap. */
module TextSplitter {

  datatype Config = Config(maxText: nat, overlap: nat, maxTable: nat) {
    /** What the configuration refuses to be built without. */
    predicate Valid() {
      maxText > 0 && overlap < maxText && maxTable > 0
    }
  }

  /** str.isspace for the characters that strip removes. */
  predicate IsSpace(c: char) {
    c as int in {0x9, 0xA, 0xB, 0xC, 0xD, 0x1C, 0x1D, 0x1E, 0x1F, 0x20, 0x85, 0xA0, 0x1680, 0x2028, 0x2029, 0x202F,
                 0x205F, 0x3000} ||
    0x2000 <= c as int <= 0x200A
  }

  predicate Matches(text: string, sub: string, i: int) {
    0 <= i && i + |sub| <= |text| && text[i..i + |sub|] == sub
  }

  /** str.rfind within [lo, hi): the last match that lies inside, or -1. */
  function RFind(text: string, sub: string, lo: nat, hi: nat): (r: int)
    requires hi <= |text|
    ensures r == -1 || (lo <= r && r + |sub| <= hi)
    decreases hi
  {
    if hi < lo + |sub| then -1
    else if Matches(text, sub, hi - |sub|) then hi - |sub|
    else if hi == 0 then -1
    else RFind(text, sub, lo, hi - 1)
  }

  lemma {:induction false} RFindIsLast(text: string, sub: string, lo: nat, hi: nat)
    requires hi <= |text|
    ensures var r := RFind(text, sub, lo, hi);
            && (r != -1 ==> Matches(text, sub, r))
            && (forall j | lo <= j && r < j && j + |sub| <= hi :: !Matches(text, sub, j))
    decreases hi
  {
    if lo + |sub| <= hi && !Matches(text, sub, hi - |sub|) && hi != 0 {
      RFindIsLast(text, sub, lo, hi - 1);
    }
  }

  function Max(a: int, b: int): int { if a >= b then a else b }

  function Min(a: int, b: int): int { if a <= b then a else b }

  /** The end of the window that starts at start. */
  function CutAt(text: string, start: nat, maximum: nat): (end: nat)
    requires start < |text| && maximum > 0
    ensures start < end <= |text| && end <= start + maximum
  {
    var upper := Min(start + maximum, |text|);
    if upper == |text| then upper
    else
      var best := Max(RFind(text, "\n\n", start, upper),
                      Max(RFind(text, ". ", start, upper), RFind(text, " ", start, upper)));
      if best <= start then upper
      else if Matches(text, ". ", best) then best + 1
      else best
  }

  function NextStart(start: nat, end: nat, overlap: nat): (next: nat)
    requires start < end
    ensures start < next <= end
  {
    if Max(0, end - overlap) <= start then end else Max(0, end - overlap)
  }

  datatype Window = Window(start: nat, end: nat)

  function Windows(text: string, config: Config, start: nat): (ws: seq<Window>)
    requires config.Valid() && start < |text|
    ensures ws != [] && ws[0].start == start
    decreases |text| - start
  {
    var end := CutAt(text, start, config.maxText);
    if end >= |text| then [Window(start, end)]
    else [Window(start, end)] + Windows(text, config, NextStart(start, end, config.overlap))
  }

  // ----- stripping -----

  function LeftTrim(s: string): nat
  {
    if s == [] || !IsSpace(s[0]) then 0 else 1 + LeftTrim(s[1..])
  }

  function RightTrim(s: string): nat
  {
    if s == [] || !IsSpace(s[|s| - 1]) then |s| else RightTrim(s[..|s| - 1])
  }

  function Strip(s: string): string {
    var r := RightTrim(s);
    TrimBounds(s);
    s[LeftTrim(s[..r])..r]
  }

  lemma {:induction false} LeftTrimBounds(s: string)
    ensures LeftTrim(s) <= |s| && forall i | 0 <= i < LeftTrim(s) :: IsSpace(s[i])
  {
    if s != [] && IsSpace(s[0]) {
      LeftTrimBounds(s[1..]);
      forall i | 0 <= i < LeftTrim(s) ensures IsSpace(s[i]) {
        if i > 0 { assert s[i] == s[1..][i - 1]; }
      }
    }
  }

  lemma {:induction false} RightTrimBounds(s: string)
    ensures RightTrim(s) <= |s| && forall i | RightTrim(s) <= i < |s| :: IsSpace(s[i])
  {
    if s != [] && IsSpace(s[|s| - 1]) {
      RightTrimBounds(s[..|s| - 1]);
      forall i | RightTrim(s) <= i < |s| ensures IsSpace(s[i]) {
        if i < |s| - 1 { assert s[i] == s[..|s| - 1][i]; }
      }
    }
  }

  lemma {:induction false} TrimBounds(s: string)
    ensures RightTrim(s) <= |s| && LeftTrim(s[..RightTrim(s)]) <= RightTrim(s)
  {
    RightTrimBounds(s);
    LeftTrimBounds(s[..RightTrim(s)]);
  }

  /** Stripping removes white space only: a character that is none keeps its place in what is left. */
  lemma {:induction false} StripKeeps(s: string, j: nat) returns (a: nat, b: nat)
    requires j < |s| && !IsSpace(s[j])
    ensures a <= j < b <= |s| && Strip(s) == s[a..b]
  {
    TrimBounds(s);
    RightTrimBounds(s);
    b := RightTrim(s);
    LeftTrimBounds(s[..b]);
    a := LeftTrim(s[..b]);
    assert forall i | 0 <= i < a :: s[..b][i] == s[i];
  }

  // ----- the splitter -----

  function Piece(text: string, w: Window): string
    requires w.start <= w.end <= |text|
  {
    Strip(text[w.start..w.end])
  }

  function NonEmpty(pieces: seq<string>): seq<string> {
    if pieces == [] then []
    else NonEmpty(pieces[..|pieces| - 1]) + if pieces[|pieces| - 1] != "" then [pieces[|pieces| - 1]] else []
  }

  lemma {:induction false} WindowsInText(text: string, config: Config, start: nat)
    requires config.Valid() && start < |text|
    ensures forall w | w in Windows(text, config, start) ::
              w.start < w.end <= |text| && w.end - w.start <= config.maxText
    decreases |text| - start
  {
    var end := CutAt(text, start, config.maxText);
    if end < |text| {
      WindowsInText(text, config, NextStart(start, end, config.overlap));
    }
  }

  function AllPieces(text: string, ws: seq<Window>): seq<string>
    requires forall w | w in ws :: w.start <= w.end <= |text|
  {
    seq(|ws|, i requires 0 <= i < |ws| => Piece(text, ws[i]))
  }

  /** What the splitter returns, as a function of the windows. */
  function Split(text: string, config: Config): seq<string>
    requires config.Valid()
  {
    if |text| <= config.maxText then [text]
    else
      WindowsInText(text, config, 0);
      NonEmpty(AllPieces(text, Windows(text, config, 0)))
  }

  /** The end of one window, with the candidates and adjustments of the loop's body. */
  method CutWindow(text: string, start: nat, maximum: nat) returns (end: nat)
    requires start < |text| && maximum > 0
    ensures end == CutAt(text, start, maximum)
  {
    var upper := Min(start + maximum, |text|);
    end := upper;
    if upper < |text| {
      var blank := RFind(text, "\n\n", start, upper);
      var stop := RFind(text, ". ", start, upper);
      var space := RFind(text, " ", start, upper);
      var best := Max(blank, Max(stop, space));
      if best > start {
        end := best;
        if Matches(text, ". ", end) {
          end := end + 1;
        }
      }
    }
    if end <= start {
      end := upper;
    }
  }

  method DropEmpty(pieces: seq<string>) returns (result: seq<string>)
    ensures result == NonEmpty(pieces)
  {
    result := [];
    for i := 0 to |pieces|
      invariant result == NonEmpty(pieces[..i])
    {
      assert pieces[..i + 1][..i] == pieces[..i];
      if pieces[i] != "" {
        result := result + [pieces[i]];
      }
    }
    assert pieces[..|pieces|] == pieces;
  }

  /** The pieces from a start on, as the loop appends them. */
  function PiecesFrom(text: string, config: Config, start: nat): seq<string>
    requires config.Valid() && start < |text|
    decreases |text| - start
  {
    var end := CutAt(text, start, config.maxText);
    [Strip(text[start..end])] +
    if end >= |text| then [] else PiecesFrom(text, config, NextStart(start, end, config.overlap))
  }

  lemma {:induction false} PiecesFromWindows(text: string, config: Config, start: nat)
    requires config.Valid() && start < |text|
    ensures forall w | w in Windows(text, config, start) :: w.start <= w.end <= |text|
    ensures PiecesFrom(text, config, start) == AllPieces(text, Windows(text, config, start))
    decreases |text| - start
  {
    var end := CutAt(text, start, config.maxText);
    if end < |text| {
      var next := NextStart(start, end, config.overlap);
      PiecesFromWindows(text, config, next);
      PiecesCons(text, Window(start, end), Windows(text, config, next));
    } else {
      PiecesCons(text, Window(start, end), []);
    }
  }

  lemma {:induction false} PiecesCons(text: string, w: Window, ws: seq<Window>)
    requires w.start <= w.end <= |text| && forall v | v in ws :: v.start <= v.end <= |text|
    ensures forall v | v in [w] + ws :: v.start <= v.end <= |text|
    ensures AllPieces(text, [w] + ws) == [Strip(text[w.start..w.end])] + AllPieces(text, ws)
  {
  }

  lemma {:induction false} PiecesUnfold(text: string, config: Config, start: nat, end: nat, next: nat, piece: string)
    requires config.Valid() && start < |text| && end == CutAt(text, start, config.maxText)
    requires end < |text| ==> next == NextStart(start, end, config.overlap)
    requires piece == Strip(text[start..end])
    ensures PiecesFrom(text, config, start) == [piece] + if end < |text| then PiecesFrom(text, config, next) else []
  {
  }

  lemma {:induction false} Regroup<T>(a: seq<T>, b: seq<T>, c: seq<T>)
    ensures a + (b + c) == (a + b) + c
    ensures (a + b) + [] == a + b
  {
  }

  method NextWindow(start: nat, end: nat, overlap: nat) returns (next: nat)
    requires start < end
    ensures next == NextStart(start, end, overlap)
  {
    next := Max(0, end - overlap);
    if next <= start {
      next := end;
    }
  }

  /** _split_text. */
  method SplitText(text: string, config: Config) returns (result: seq<string>)
    requires config.Valid()
    ensures result == Split(text, config)
  {
    if |text| <= config.maxText {
      return [text];
    }
    var pieces: seq<string> := [];
    var start := 0;
    while true
      invariant start < |text|
      invariant PiecesFrom(text, config, 0) == pieces + PiecesFrom(text, config, start)
      decreases |text| - start
    {
      var end := CutWindow(text, start, config.maxText);
      var piece := Strip(text[start..end]);
      if end >= |text| {
        PiecesUnfold(text, config, start, end, 0, piece);
        Regroup(pieces, [piece], []);
        pieces := pieces + [piece];
        break;
      }
      var next := NextWindow(start, end, config.overlap);
      PiecesUnfold(text, config, start, end, next, piece);
      Regroup(pieces, [piece], PiecesFrom(text, config, next));
      pieces := pieces + [piece];
      start := next;
    }
    PiecesFromWindows(text, config, 0);
    result := DropEmpty(pieces);
  }

  // ----- where a window ends -----

  lemma {:induction false} FirstCharacter(text: string, sub: string, i: int)
    requires Matches(text, sub, i) && sub != ""
    ensures i < |text| && text[i] == sub[0]
  {
    assert text[i..i + |sub|][0] == text[i];
  }

  /** A full stop with its space inside the window puts a later space inside the window. */
  lemma {:induction false} StopHasSpace(text: string, start: nat, upper: nat)
    requires upper <= |text|
    ensures RFind(text, ". ", start, upper) < RFind(text, " ", start, upper) || RFind(text, ". ", start, upper) == -1
  {
    var stop := RFind(text, ". ", start, upper);
    RFindIsLast(text, ". ", start, upper);
    RFindIsLast(text, " ", start, upper);
    if stop != -1 {
      assert text[stop..stop + 2][1] == ' ';
      assert text[stop + 1..stop + 2] == " ";
      assert Matches(text, " ", stop + 1);
    }
  }

  /** The best break is never a full stop: the space after it is a later candidate. So the adjustment
      for ". " never fires. */
  lemma {:induction false} StopNeverWins(text: string, start: nat, upper: nat)
    requires start < upper < |text|
    ensures var blank, stop, space :=
              RFind(text, "\n\n", start, upper), RFind(text, ". ", start, upper), RFind(text, " ", start, upper);
            var best := Max(blank, Max(stop, space));
            best == Max(blank, space) && (best > start ==> !Matches(text, ". ", best))
  {
    var blank, space := RFind(text, "\n\n", start, upper), RFind(text, " ", start, upper);
    StopHasSpace(text, start, upper);
    RFindIsLast(text, "\n\n", start, upper);
    RFindIsLast(text, " ", start, upper);
    var best := Max(blank, space);
    if best > start {
      if best == blank {
        FirstCharacter(text, "\n\n", best);
      } else {
        FirstCharacter(text, " ", best);
      }
      assert text[best] != '.';
      assert best + 2 <= |text| ==> text[best..best + 2][0] == text[best];
    }
  }

  /** The last break of a window. */
  function LastBreak(text: string, lo: nat, hi: nat): int
    requires hi <= |text|
  {
    Max(RFind(text, "\n\n", lo, hi), RFind(text, " ", lo, hi))
  }

  /** A window that does not reach the end of the text is cut at the last space or blank line that lies
      in it after its start, or is a full window when there is none. */
  lemma {:induction false} CutIsLastBreak(text: string, start: nat, maximum: nat)
    requires start < |text| && maximum > 0
    ensures var end := CutAt(text, start, maximum);
            var upper := Min(start + maximum, |text|);
            var last := LastBreak(text, start, upper);
            if upper == |text| then end == |text|
            else if last > start then end == last
            else end == start + maximum
  {
    var upper := Min(start + maximum, |text|);
    if upper < |text| {
      StopNeverWins(text, start, upper);
    }
  }

  // ----- coverage -----

  /** Starts increase strictly, no window is longer than the maximum, the windows begin at the start,
      reach the end and leave no gap. */
  ghost predicate Covers(ws: seq<Window>, from: nat, to: nat, maximum: nat) {
    && ws != [] && ws[0].start == from && ws[|ws| - 1].end == to
    && (forall i | 0 <= i < |ws| :: ws[i].start < ws[i].end <= to && ws[i].end - ws[i].start <= maximum)
    && (forall i | 0 < i < |ws| :: ws[i - 1].start < ws[i].start <= ws[i - 1].end)
  }

  lemma {:induction false} CoversCons(w: Window, rest: seq<Window>, to: nat, maximum: nat)
    requires w.start < w.end <= to && w.end - w.start <= maximum
    requires rest != [] && Covers(rest, rest[0].start, to, maximum) && w.start < rest[0].start <= w.end
    ensures Covers([w] + rest, w.start, to, maximum)
  {
    var ws := [w] + rest;
    assert ws[|ws| - 1] == rest[|rest| - 1];
    forall i | 0 < i < |ws| ensures ws[i - 1].start < ws[i].start <= ws[i - 1].end {
      if i > 1 {
        assert ws[i] == rest[i - 1] && ws[i - 1] == rest[i - 2];
      }
    }
  }

  lemma {:induction false} WindowsCover(text: string, config: Config, start: nat)
    requires config.Valid() && start < |text|
    ensures Covers(Windows(text, config, start), start, |text|, config.maxText)
    decreases |text| - start
  {
    var end := CutAt(text, start, config.maxText);
    if end < |text| {
      var next := NextStart(start, end, config.overlap);
      WindowsCover(text, config, next);
      CoversCons(Window(start, end), Windows(text, config, next), |text|, config.maxText);
    }
  }

  lemma {:induction false} SomeWindowHolds(ws: seq<Window>, from: nat, to: nat, maximum: nat, j: nat) returns (i: nat)
    requires Covers(ws, from, to, maximum) && from <= j < to
    ensures i < |ws| && ws[i].start <= j < ws[i].end
  {
    i := 0;
    while ws[i].end <= j
      invariant i < |ws| && ws[i].start <= j
      decreases |ws| - i
    {
      i := i + 1;
    }
  }

  lemma {:induction false} NonEmptyHas(pieces: seq<string>, p: string)
    ensures p in NonEmpty(pieces) <==> p in pieces && p != ""
  {
    if pieces != [] {
      NonEmptyHas(pieces[..|pieces| - 1], p);
      assert p in pieces <==> p in pieces[..|pieces| - 1] || p == pieces[|pieces| - 1];
    }
  }

  lemma {:induction false} SliceOfSlice<T>(s: seq<T>, lo: nat, hi: nat, c: nat, d: nat)
    requires lo <= hi <= |s| && c <= d <= hi - lo
    ensures s[lo..hi][c..d] == s[lo + c..lo + d]
  {
    forall k | 0 <= k < d - c ensures s[lo..hi][c..d][k] == s[lo + c..lo + d][k] {
      assert s[lo..hi][c + k] == s[lo + c + k];
    }
  }

  lemma {:induction false} PieceHolds(text: string, w: Window, j: nat) returns (a: nat, b: nat)
    requires w.start <= j < w.end <= |text| && !IsSpace(text[j])
    ensures a <= j < b <= |text| && Piece(text, w) == text[a..b]
  {
    var c, d := StripKeeps(text[w.start..w.end], j - w.start);
    a, b := w.start + c, w.start + d;
    SliceOfSlice(text, w.start, w.end, c, d);
  }

  /** Every character that is not white space survives, in place, in one of the returned pieces. */
  lemma {:induction false} NothingIsLost(text: string, config: Config, j: nat) returns (a: nat, b: nat)
    requires config.Valid() && j < |text| && !IsSpace(text[j])
    ensures a <= j < b <= |text| && text[a..b] in Split(text, config)
  {
    if |text| <= config.maxText {
      a, b := 0, |text|;
      assert text[a..b] == text;
    } else {
      var ws := Windows(text, config, 0);
      WindowsInText(text, config, 0);
      WindowsCover(text, config, 0);
      var i := SomeWindowHolds(ws, 0, |text|, config.maxText, j);
      a, b := PieceHolds(text, ws[i], j);
      var pieces := AllPieces(text, ws);
      assert pieces[i] == text[a..b] && pieces[i] in pieces;
      NonEmptyHas(pieces, text[a..b]);
    }
  }

  /** No piece is empty or longer than the maximum, unless the whole text is short. */
  lemma {:induction false} PiecesAreBounded(text: string, config: Config, p: string)
    requires config.Valid() && p in Split(text, config)
    ensures |p| <= config.maxText
    ensures |text| > config.maxText ==> p != ""
  {
    if |text| > config.maxText {
      var ws := Windows(text, config, 0);
      WindowsInText(text, config, 0);
      NonEmptyHas(AllPieces(text, ws), p);
      var i :| 0 <= i < |ws| && AllPieces(text, ws)[i] == p;
      assert ws[i] in ws;
      TrimBounds(text[ws[i].start..ws[i].end]);
    }
  }

  // ----- ends may step back -----

  /** A match found in a window is still found, or passed by a later one, in a window that holds it. */
  lemma {:induction false} LaterWindowFinds(text: string, sub: string, lo: nat, hi: nat, lo': nat, hi': nat)
    requires hi <= hi' <= |text| && RFind(text, sub, lo, hi) >= lo'
    ensures RFind(text, sub, lo', hi') >= RFind(text, sub, lo, hi)
  {
    RFindIsLast(text, sub, lo, hi);
    RFindIsLast(text, sub, lo', hi');
  }

  /** What a later window finds and an earlier one did not, reaches past the earlier one's end. */
  lemma {:induction false} NewMatchIsPast(text: string, sub: string, lo: nat, hi: nat, lo': nat, hi': nat)
    requires lo < lo' && hi <= hi' <= |text| && RFind(text, sub, lo, hi) <= lo
    ensures RFind(text, sub, lo', hi') == -1 || RFind(text, sub, lo', hi') + |sub| > hi
  {
    RFindIsLast(text, sub, lo, hi);
    RFindIsLast(text, sub, lo', hi');
  }

  lemma {:induction false} LaterBreak(text: string, lo: nat, hi: nat, lo': nat, hi': nat)
    requires lo < lo' && hi <= hi' <= |text|
    ensures LastBreak(text, lo, hi) >= lo' ==> LastBreak(text, lo', hi') >= LastBreak(text, lo, hi)
    ensures LastBreak(text, lo, hi) <= lo ==> LastBreak(text, lo', hi') == -1 || LastBreak(text, lo', hi') >= hi - 1
  {
    if LastBreak(text, lo, hi) >= lo' {
      if LastBreak(text, lo, hi) == RFind(text, "\n\n", lo, hi) {
        LaterWindowFinds(text, "\n\n", lo, hi, lo', hi');
      } else {
        LaterWindowFinds(text, " ", lo, hi, lo', hi');
      }
    } else if LastBreak(text, lo, hi) <= lo {
      NewMatchIsPast(text, "\n\n", lo, hi, lo', hi');
      NewMatchIsPast(text, " ", lo, hi, lo', hi');
    }
  }

  lemma {:induction false} CutInside(text: string, start: nat, maximum: nat) returns (last: int)
    requires start + maximum < |text| && maximum > 0
    ensures last == LastBreak(text, start, start + maximum)
    ensures CutAt(text, start, maximum) == if last > start then last else start + maximum
  {
    last := LastBreak(text, start, start + maximum);
    CutIsLastBreak(text, start, maximum);
  }

  /** The arithmetic of two ends: how the breaks that they are cut at, if any, are placed. */
  lemma LaterEnd(last: int, last': int, lo: nat, lo': nat, maximum: nat, end: nat, end': nat)
    requires lo < lo' < end
    requires end == if last > lo then last else lo + maximum
    requires end' == if last' > lo' then last' else lo' + maximum
    requires last >= lo' ==> last' >= last
    requires last <= lo ==> last' == -1 || last' >= lo + maximum - 1
    ensures end - 1 <= end'
  {
  }

  lemma {:induction false} NextEnd(text: string, start: nat, next: nat, maximum: nat)
    requires maximum > 0 && start < next && next + maximum < |text| && next < CutAt(text, start, maximum)
    ensures CutAt(text, start, maximum) - 1 <= CutAt(text, next, maximum)
  {
    var end, end' := CutAt(text, start, maximum), CutAt(text, next, maximum);
    var last := CutInside(text, start, maximum);
    var last' := CutInside(text, next, maximum);
    LaterBreak(text, start, start + maximum, next, next + maximum);
    LaterEnd(last, last', start, next, maximum, end, end');
  }

  /** The end of the next window is never before this one's by more than one character. */
  lemma {:induction false} EndsStepBackByOne(text: string, config: Config, start: nat, end: nat, next: nat, end': nat)
    requires config.Valid() && start < |text| && end == CutAt(text, start, config.maxText) && end < |text|
    requires next == NextStart(start, end, config.overlap) && end' == CutAt(text, next, config.maxText)
    ensures end - 1 <= end'
  {
    if next + config.maxText >= |text| {
      CutIsLastBreak(text, next, config.maxText);
    } else if next < end {
      NextEnd(text, start, next, config.maxText);
    }
  }

  /** And it does happen: a blank line that straddles the end of a full window pulls the next end back. */
  lemma {:induction false} EndsCanStepBack(text: string)
    requires |text| == 11 && text[5] == text[6] == '\n'
    requires forall i | 0 <= i < |text| :: text[i] != ' ' && (text[i] == '\n' ==> 5 <= i <= 6)
    ensures CutAt(text, 0, 6) == 6 && NextStart(0, 6, 3) == 3 && CutAt(text, 3, 6) == 5
  {
    CutIsLastBreak(text, 0, 6);
    CutIsLastBreak(text, 3, 6);
    NoSpaceIn(text, 0, 6);
    NoSpaceIn(text, 3, 9);
    BlankLineAt(text, 5, 0, 6);
    BlankLineAt(text, 5, 3, 9);
  }

  lemma {:induction false} BlankLineAt(text: string, at: nat, lo: nat, hi: nat)
    requires lo <= at && at + 2 < |text| && hi <= |text| && text[at] == text[at + 1] == '\n'
    requires forall i | 0 <= i < |text| :: text[i] == '\n' ==> at <= i <= at + 1
    ensures RFind(text, "\n\n", lo, hi) == if at + 2 <= hi then at else -1
  {
    RFindIsLast(text, "\n\n", lo, hi);
    assert text[at..at + 2] == "\n\n";
    assert Matches(text, "\n\n", at);
    var r := RFind(text, "\n\n", lo, hi);
    if r != -1 {
      FirstCharacter(text, "\n\n", r);
      assert text[r..r + 2][1] == text[r + 1];
    }
  }

  lemma {:induction false} NoSpaceIn(text: string, lo: nat, hi: nat)
    requires hi <= |text| && forall i | 0 <= i < |text| :: text[i] != ' '
    ensures RFind(text, " ", lo, hi) == -1
  {
    RFindIsLast(text, " ", lo, hi);
    if RFind(text, " ", lo, hi) != -1 {
      FirstCharacter(text, " ", RFind(text, " ", lo, hi));
    }
  }
}
