/** Cutting section contents into overlapping windows. */
module Chunking {
  import opened Text

  datatype Section = Section(key: string, title: string, locator: string, content: string)

  datatype Chunk = Chunk(section: Section, ordinal: nat)

  datatype Chunked = Chunks(chunks: seq<Chunk>) | InvalidBounds

  /** The last occurrence lying within `[low, high)`, or -1. */
  function RFind(s: string, target: string, low: nat, high: nat): int
    requires low <= high <= |s| && target != ""
    decreases high
  {
    if high - low < |target| then -1
    else if s[high - |target|..high] == target then high - |target|
    else RFind(s, target, low, high - 1)
  }

  lemma {:induction false} RFindOccurs(s: string, target: string, low: nat, high: nat)
    requires low <= high <= |s| && target != "" && RFind(s, target, low, high) != -1
    ensures low <= RFind(s, target, low, high) <= high - |target|
    ensures OccursAt(s, target, RFind(s, target, low, high))
    decreases high
  {
    if s[high - |target|..high] != target {
      RFindOccurs(s, target, low, high - 1);
    }
  }

  lemma {:induction false} NothingBehindRFind(s: string, target: string, low: nat, high: nat, i: nat)
    requires low <= i && i + |target| <= high <= |s| && target != "" && OccursAt(s, target, i)
    ensures i <= RFind(s, target, low, high)
    decreases high
  {
    if i + |target| < high && s[high - |target|..high] != target {
      NothingBehindRFind(s, target, low, high - 1, i);
    }
  }

  function Max(a: int, b: int): int {
    if a < b then b else a
  }

  function Min(a: int, b: int): int {
    if a < b then a else b
  }

  const FULL_STOP: string := "\U{3002}"

  /** The last line break or sentence end in a window. */
  function Boundary(s: string, start: nat, end: nat): int
    requires start <= end <= |s|
  {
    Max(Max(RFind(s, "\n", start, end), RFind(s, FULL_STOP, start, end)), RFind(s, ". ", start, end))
  }

  predicate ValidBounds(max: int, overlap: int) {
    1 <= max && 0 <= overlap < max
  }

  /** Where a window of a text of `size` characters ends, given the last break within its reach. */
  function CutAt(size: nat, start: nat, max: nat, boundary: int): int {
    var full := Min(size, start + max);
    if full < size && boundary > start + max / 2 then boundary + 1 else full
  }

  function WindowEnd(s: string, start: nat, max: nat): (end: nat)
    requires start < |s| && max >= 1
    ensures start < end <= |s| && end <= start + max
  {
    BoundaryIsLastBreak(s, start, Min(|s|, start + max));
    CutAt(|s|, start, max, Boundary(s, start, Min(|s|, start + max)))
  }

  function NextStart(start: nat, end: nat, overlap: nat): (next: nat)
    ensures start < next && (start < end ==> next <= end)
  {
    Max(start + 1, end - overlap)
  }

  datatype Window = Window(start: nat, end: nat)

  function Windows(s: string, start: nat, max: nat, overlap: nat): seq<Window>
    requires ValidBounds(max, overlap)
    decreases |s| - start
  {
    if start >= |s| then []
    else
      var end := WindowEnd(s, start, max);
      [Window(start, end)] + if end >= |s| then [] else Windows(s, NextStart(start, end, overlap), max, overlap)
  }

  // ----- What the windows have in common -----

  /** A sentence end lies within `[low, high)` at `i`. */
  predicate BreakAt(s: string, i: nat, low: nat, high: nat) {
    low <= i && (  (i + 1 <= high && (OccursAt(s, "\n", i) || OccursAt(s, FULL_STOP, i)))
                 || (i + 2 <= high && OccursAt(s, ". ", i)))
  }

  ghost predicate IsLastBreak(s: string, b: int, low: nat, high: nat) {
    && b >= -1 && (b != -1 ==> low <= b && BreakAt(s, b, low, high))
    && forall i: nat :: BreakAt(s, i, low, high) ==> i <= b
  }

  lemma BoundaryIsLastBreak(s: string, start: nat, end: nat)
    requires start <= end <= |s|
    ensures IsLastBreak(s, Boundary(s, start, end), start, end)
  {
    var b := Boundary(s, start, end);
    if b != -1 {
      var target :=
        if b == RFind(s, "\n", start, end) then "\n"
        else if b == RFind(s, FULL_STOP, start, end) then FULL_STOP
        else ". ";
      RFindOccurs(s, target, start, end);
    }
    forall i: nat | BreakAt(s, i, start, end)
      ensures i <= b
    {
      var target :=
        if i + 1 <= end && OccursAt(s, "\n", i) then "\n"
        else if i + 1 <= end && OccursAt(s, FULL_STOP, i) then FULL_STOP
        else ". ";
      NothingBehindRFind(s, target, start, end, i);
    }
  }

  /** A window reaches the end of the text if it can; otherwise it ends right behind the last break past its
      middle if there is one, and else has its full length. */
  lemma WindowEndMeaning(s: string, start: nat, max: nat, b: int)
    requires start < |s| && max >= 1 && IsLastBreak(s, b, start, Min(|s|, start + max))
    ensures start + max >= |s| ==> WindowEnd(s, start, max) == |s|
    ensures start + max < |s| && b > start + max / 2 ==> WindowEnd(s, start, max) == b + 1
    ensures start + max < |s| && b <= start + max / 2 ==> WindowEnd(s, start, max) == start + max
  {
    var full := Min(|s|, start + max);
    BoundaryIsLastBreak(s, start, full);
    LastBreakIsUnique(s, b, Boundary(s, start, full), start, full);
  }

  lemma LastBreakIsUnique(s: string, b: int, b': int, low: nat, high: nat)
    requires IsLastBreak(s, b, low, high) && IsLastBreak(s, b', low, high)
    ensures b == b'
  {
  }

  /** A break seen through one window is seen through another that holds it and a character more. */
  lemma BreakSeenFrom(s: string, i: nat, low: nat, high: nat, low': nat, high': nat)
    requires BreakAt(s, i, low, high) && low' <= i && (high <= high' || i + 2 <= high')
    ensures BreakAt(s, i, low', high')
  {
  }

  /** A later window that was cut at a break still ends no earlier than the window before it. */
  lemma CutsNeverMoveBack(s: string, half: nat, start: nat, full: nat, b: int, end: nat, next: nat, nextFull: nat,
                          b': nat)
    requires IsLastBreak(s, b, start, full) && IsLastBreak(s, b', next, nextFull)
    requires start < next <= end && full <= nextFull && b' > next + half
    requires (end == full && b <= start + half) || end == b + 1
    ensures b' + 1 >= end
  {
    if end == b + 1 {
      if next <= b {
        BreakSeenFrom(s, b, start, full, next, nextFull);
      }
    } else if b' + 2 <= full {
      BreakSeenFrom(s, b', next, nextFull, start, full);
    }
  }

  lemma CutEndsNeverMoveBack(s: string, start: nat, max: nat, b: int, next: nat, b': int)
    requires start < |s| && max >= 1 && CutAt(|s|, start, max, b) < |s|
    requires IsLastBreak(s, b, start, Min(|s|, start + max))
    requires start < next <= CutAt(|s|, start, max, b)
    requires IsLastBreak(s, b', next, Min(|s|, next + max))
    ensures CutAt(|s|, next, max, b') >= CutAt(|s|, start, max, b)
  {
    var full, nextFull := Min(|s|, start + max), Min(|s|, next + max);
    var end := CutAt(|s|, start, max, b);
    if nextFull < |s| && b' > next + max / 2 {
      CutsNeverMoveBack(s, max / 2, start, full, b, end, next, nextFull, b');
    }
  }

  /** Starting a window further on never moves its end back. */
  lemma EndsNeverMoveBack(s: string, start: nat, max: nat, next: nat)
    requires start < |s| && max >= 1 && WindowEnd(s, start, max) < |s|
    requires start < next <= WindowEnd(s, start, max)
    ensures WindowEnd(s, next, max) >= WindowEnd(s, start, max)
  {
    var full, nextFull := Min(|s|, start + max), Min(|s|, next + max);
    BoundaryIsLastBreak(s, start, full);
    BoundaryIsLastBreak(s, next, nextFull);
    CutEndsNeverMoveBack(s, start, max, Boundary(s, start, full), next, Boundary(s, next, nextFull));
  }

  /** The windows of a content tile it: they start at its beginning, leave no gap, make progress,
      never move an end back, and stop at its end. */
  ghost predicate Tiles(s: string, windows: seq<Window>, start: nat, max: nat) {
    && windows != [] && windows[0].start == start && windows[|windows| - 1].end == |s|
    && (forall i :: 0 <= i < |windows| ==>
          windows[i].start < windows[i].end <= |s| && windows[i].end - windows[i].start <= max)
    && forall i :: 0 <= i < |windows| - 1 ==>
         windows[i].start < windows[i + 1].start <= windows[i].end <= windows[i + 1].end
  }

  lemma {:induction false} WindowsTile(s: string, start: nat, max: nat, overlap: nat)
    requires start < |s| && ValidBounds(max, overlap)
    ensures Tiles(s, Windows(s, start, max, overlap), start, max)
    decreases |s| - start
  {
    var end := WindowEnd(s, start, max);
    if end < |s| {
      var next := NextStart(start, end, overlap);
      EndsNeverMoveBack(s, start, max, next);
      WindowsTile(s, next, max, overlap);
      TilesCons(s, Window(start, end), Windows(s, next, max, overlap), next, max);
    }
  }

  lemma TilesCons(s: string, first: Window, rest: seq<Window>, next: nat, max: nat)
    requires Tiles(s, rest, next, max) && first.start < first.end <= |s| && first.end - first.start <= max
    requires first.start < next <= first.end <= rest[0].end
    ensures Tiles(s, [first] + rest, first.start, max)
  {
    var windows := [first] + rest;
    forall i | 0 <= i < |windows|
      ensures windows[i].start < windows[i].end <= |s| && windows[i].end - windows[i].start <= max
    {
      assert i > 0 ==> windows[i] == rest[i - 1];
    }
    forall i | 0 <= i < |windows| - 1
      ensures windows[i].start < windows[i + 1].start <= windows[i].end <= windows[i + 1].end
    {
      assert windows[i + 1] == rest[i] && (i > 0 ==> windows[i] == rest[i - 1] && rest[(i - 1) + 1] == rest[i]);
    }
  }

  /** Neighbouring windows share at most `overlap` characters, and exactly as many unless the next one
      starts right behind the previous start. */
  lemma {:induction false} OverlapIsBounded(s: string, start: nat, max: nat, overlap: nat, i: nat)
    requires ValidBounds(max, overlap) && i + 1 < |Windows(s, start, max, overlap)|
    ensures var w, v := Windows(s, start, max, overlap)[i], Windows(s, start, max, overlap)[i + 1];
      w.end - v.start <= overlap && (v.start == w.start + 1 || w.end - v.start == overlap)
    decreases |s| - start
  {
    if i > 0 {
      var end := WindowEnd(s, start, max);
      OverlapIsBounded(s, NextStart(start, end, overlap), max, overlap, i - 1);
    }
  }

  /** Each window without the characters its predecessor already had. */
  function DropOverlaps(s: string, windows: seq<Window>, from: nat): string
    requires forall i :: 0 <= i < |windows| ==> windows[i].start <= windows[i].end <= |s|
  {
    if windows == [] then ""
    else
      var text, skip := s[windows[0].start..windows[0].end], from - windows[0].start;
      (if 0 <= skip <= |text| then text[skip..] else text) + DropOverlaps(s, windows[1..], windows[0].end)
  }

  lemma {:induction false} DropOverlapsFrom(s: string, windows: seq<Window>, from: nat)
    requires windows != [] && windows[|windows| - 1].end == |s|
    requires forall i :: 0 <= i < |windows| ==> windows[i].start <= windows[i].end <= |s|
    requires forall i :: 0 <= i < |windows| - 1 ==> windows[i + 1].start <= windows[i].end <= windows[i + 1].end
    requires windows[0].start <= from <= windows[0].end
    ensures DropOverlaps(s, windows, from) == s[from..]
  {
    var first := windows[0];
    assert s[first.start..first.end][from - first.start..] == s[from..first.end];
    if |windows| > 1 {
      DropOverlapsFrom(s, windows[1..], first.end);
      assert s[from..first.end] + s[first.end..] == s[from..];
    } else {
      assert windows[1..] == [];
      assert s[from..|s|] + "" == s[from..];
    }
  }

  /** Dropping the overlaps puts the content back together. */
  lemma WindowsReconstruct(s: string, max: nat, overlap: nat)
    requires ValidBounds(max, overlap) && s != ""
    ensures forall i :: 0 <= i < |Windows(s, 0, max, overlap)| ==>
      Windows(s, 0, max, overlap)[i].start <= Windows(s, 0, max, overlap)[i].end <= |s|
    ensures DropOverlaps(s, Windows(s, 0, max, overlap), 0) == s
  {
    WindowsTile(s, 0, max, overlap);
    DropOverlapsFrom(s, Windows(s, 0, max, overlap), 0);
    assert s[0..] == s;
  }

  /** Every position lies in a window. */
  lemma {:induction false} PositionIsCovered(s: string, start: nat, max: nat, overlap: nat, p: nat) returns (i: nat)
    requires ValidBounds(max, overlap) && start <= p < |s|
    ensures i < |Windows(s, start, max, overlap)|
    ensures var w := Windows(s, start, max, overlap)[i]; w.start <= p < w.end <= |s|
    decreases |s| - start
  {
    var end := WindowEnd(s, start, max);
    if p < end {
      i := 0;
    } else {
      var rest := PositionIsCovered(s, NextStart(start, end, overlap), max, overlap, p);
      i := rest + 1;
    }
  }

  // ----- Sections -----

  /** One section's windows, stripped; a blank one is skipped. */
  function Stretches(section: Section, windows: seq<Window>, space: char -> bool): seq<Section>
    requires forall w :: w in windows ==> w.start <= w.end <= |section.content|
  {
    if windows == [] then []
    else
      var text := Strip(section.content[windows[0].start..windows[0].end], space);
      (if text == "" then [] else [section.(content := text)]) + Stretches(section, windows[1..], space)
  }

  lemma WindowsInRange(s: string, start: nat, max: nat, overlap: nat)
    requires ValidBounds(max, overlap)
    ensures forall w :: w in Windows(s, start, max, overlap) ==> w.start < w.end <= |s| && w.end - w.start <= max
  {
    if start < |s| {
      WindowsTile(s, start, max, overlap);
    }
  }

  /** A section's stretches from `start` on. */
  function StretchesFrom(section: Section, start: nat, max: nat, overlap: nat, space: char -> bool): seq<Section>
    requires ValidBounds(max, overlap)
  {
    WindowsInRange(section.content, start, max, overlap);
    Stretches(section, Windows(section.content, start, max, overlap), space)
  }

  function AllStretches(sections: seq<Section>, max: nat, overlap: nat, space: char -> bool): seq<Section>
    requires ValidBounds(max, overlap)
  {
    if sections == [] then []
    else StretchesFrom(sections[0], 0, max, overlap, space) + AllStretches(sections[1..], max, overlap, space)
  }

  /** The stretches of all sections, numbered in one run. */
  function Numbered(stretches: seq<Section>): (chunks: seq<Chunk>)
    ensures |chunks| == |stretches|
    ensures forall i :: 0 <= i < |chunks| ==> chunks[i] == Chunk(stretches[i], i)
  {
    seq(|stretches|, i requires 0 <= i < |stretches| => Chunk(stretches[i], i))
  }

  /** `piece` is a non-blank stretch of `section`, no longer than `max`, with no white space at either end. */
  ghost predicate IsStretchOf(piece: Section, section: Section, max: nat, space: char -> bool) {
    var text := piece.content;
    && piece.(content := section.content) == section
    && 0 < |text| <= max && !space(text[0]) && !space(text[|text| - 1])
    && exists low: nat :: OccursAt(section.content, text, low)
  }

  lemma {:induction false} StripTrailingEnd(s: string, space: char -> bool)
    requires StripTrailing(s, space) != ""
    ensures s[0] == StripTrailing(s, space)[0] && !space(StripTrailing(s, space)[|StripTrailing(s, space)| - 1])
  {
    if space(s[|s| - 1]) {
      StripTrailingEnd(s[..|s| - 1], space);
    }
  }

  lemma {:induction false} StripLeadingStart(s: string, space: char -> bool)
    ensures StripLeading(s, space) != "" ==> !space(StripLeading(s, space)[0])
  {
    if s != "" && space(s[0]) {
      StripLeadingStart(s[1..], space);
    }
  }

  lemma StrippedWindowIsStretch(section: Section, w: Window, max: nat, space: char -> bool)
    requires w.start <= w.end <= |section.content| && w.end - w.start <= max
    requires Strip(section.content[w.start..w.end], space) != ""
    ensures IsStretchOf(section.(content := Strip(section.content[w.start..w.end], space)), section, max, space)
  {
    var window := section.content[w.start..w.end];
    var low, high := StripRange(window, space);
    SliceOfSlice(section.content, w.start, w.end, low, high);
    assert OccursAt(section.content, Strip(window, space), w.start + low);
    StripLeadingStart(window, space);
    StripTrailingEnd(StripLeading(window, space), space);
  }

  lemma {:induction false} StretchesMeaning(section: Section, windows: seq<Window>, max: nat, space: char -> bool)
    requires forall w :: w in windows ==> w.start <= w.end <= |section.content| && w.end - w.start <= max
    ensures forall piece :: piece in Stretches(section, windows, space) ==> IsStretchOf(piece, section, max, space)
  {
    if windows != [] {
      var w := windows[0];
      if Strip(section.content[w.start..w.end], space) != "" {
        StrippedWindowIsStretch(section, w, max, space);
      }
      StretchesMeaning(section, windows[1..], max, space);
    }
  }

  /** Every piece is a stretch of one of the sections, within the limit. */
  lemma {:induction false} PiecesAreStretches(sections: seq<Section>, max: nat, overlap: nat, space: char -> bool,
                                              piece: Section)
    returns (j: nat)
    requires ValidBounds(max, overlap) && piece in AllStretches(sections, max, overlap, space)
    ensures j < |sections| && IsStretchOf(piece, sections[j], max, space)
  {
    if piece in StretchesFrom(sections[0], 0, max, overlap, space) {
      WindowsInRange(sections[0].content, 0, max, overlap);
      StretchesMeaning(sections[0], Windows(sections[0].content, 0, max, overlap), max, space);
      j := 0;
    } else {
      var rest := PiecesAreStretches(sections[1..], max, overlap, space, piece);
      j := rest + 1;
    }
  }

  /** `piece` holds the character at `p` of `section`. */
  ghost predicate Holds(piece: Section, section: Section, p: nat) {
    && piece.(content := section.content) == section
    && exists low: nat :: OccursAt(section.content, piece.content, low) && low <= p < low + |piece.content|
  }

  lemma StrippedWindowHolds(section: Section, w: Window, space: char -> bool, p: nat)
    requires w.start <= p < w.end <= |section.content| && !space(section.content[p])
    ensures Holds(section.(content := Strip(section.content[w.start..w.end], space)), section, p)
    ensures Strip(section.content[w.start..w.end], space) != ""
  {
    var window := section.content[w.start..w.end];
    var low, high := StripRange(window, space);
    assert window[p - w.start] == section.content[p];
    SliceOfSlice(section.content, w.start, w.end, low, high);
    assert OccursAt(section.content, Strip(window, space), w.start + low);
  }

  /** A window with a character that is not white space leaves a stretch that holds it. */
  lemma {:induction false} WindowLands(section: Section, windows: seq<Window>, space: char -> bool, k: nat, p: nat)
    returns (i: nat)
    requires forall w :: w in windows ==> w.start <= w.end <= |section.content|
    requires k < |windows| && windows[k].start <= p < windows[k].end && !space(section.content[p])
    ensures i < |Stretches(section, windows, space)| && Holds(Stretches(section, windows, space)[i], section, p)
  {
    var w := windows[0];
    if k == 0 {
      StrippedWindowHolds(section, w, space, p);
      i := 0;
    } else {
      i := WindowLands(section, windows[1..], space, k - 1, p);
      if Strip(section.content[w.start..w.end], space) != "" {
        i := i + 1;
      }
    }
  }

  /** Nothing but white space is lost: every other character of every section lands in a piece of its section. */
  lemma {:induction false} EveryCharacterLands(sections: seq<Section>, max: nat, overlap: nat, space: char -> bool,
                                               j: nat, p: nat)
    returns (i: nat)
    requires ValidBounds(max, overlap) && j < |sections| && p < |sections[j].content| && !space(sections[j].content[p])
    ensures i < |AllStretches(sections, max, overlap, space)|
    ensures Holds(AllStretches(sections, max, overlap, space)[i], sections[j], p)
  {
    if j == 0 {
      WindowsInRange(sections[0].content, 0, max, overlap);
      var k := PositionIsCovered(sections[0].content, 0, max, overlap, p);
      i := WindowLands(sections[0], Windows(sections[0].content, 0, max, overlap), space, k, p);
    } else {
      i := EveryCharacterLands(sections[1..], max, overlap, space, j - 1, p);
      i := |StretchesFrom(sections[0], 0, max, overlap, space)| + i;
    }
  }

  // ----- The loop -----

  lemma {:induction false} AllStretchesSnoc(sections: seq<Section>, last: Section, max: nat, overlap: nat,
                                            space: char -> bool)
    requires ValidBounds(max, overlap)
    ensures AllStretches(sections + [last], max, overlap, space)
         == AllStretches(sections, max, overlap, space) + StretchesFrom(last, 0, max, overlap, space)
  {
    if sections == [] {
      assert sections + [last] == [last];
    } else {
      assert (sections + [last])[1..] == sections[1..] + [last];
      AllStretchesSnoc(sections[1..], last, max, overlap, space);
      Regroup(StretchesFrom(sections[0], 0, max, overlap, space), AllStretches(sections[1..], max, overlap, space),
              StretchesFrom(last, 0, max, overlap, space));
    }
  }

  /** The stretches to come behind a window that ends at `end`. */
  ghost function StretchesAfter(section: Section, end: nat, next: nat, max: nat, overlap: nat,
                                space: char -> bool): seq<Section>
    requires ValidBounds(max, overlap)
  {
    if end >= |section.content| then [] else StretchesFrom(section, next, max, overlap, space)
  }

  lemma OneMoreSection(sections: seq<Section>, k: nat, max: nat, overlap: nat, space: char -> bool)
    requires ValidBounds(max, overlap) && k < |sections|
    ensures AllStretches(sections[..k + 1], max, overlap, space)
         == AllStretches(sections[..k], max, overlap, space) + StretchesFrom(sections[k], 0, max, overlap, space)
  {
    assert sections[..k + 1] == sections[..k] + [sections[k]];
    AllStretchesSnoc(sections[..k], sections[k], max, overlap, space);
  }

  /** What one turn of the inner loop takes off the stretches still to come. */
  lemma OneWindow(section: Section, start: nat, max: nat, overlap: nat, space: char -> bool)
    requires ValidBounds(max, overlap) && start < |section.content|
    ensures var end := WindowEnd(section.content, start, max);
      var text := Strip(section.content[start..end], space);
      StretchesFrom(section, start, max, overlap, space)
        == (if text == "" then [] else [section.(content := text)])
           + StretchesAfter(section, end, NextStart(start, end, overlap), max, overlap, space)
  {
    var windows := Windows(section.content, start, max, overlap);
    var end := WindowEnd(section.content, start, max);
    WindowsInRange(section.content, start, max, overlap);
    assert windows[0] == Window(start, end);
    var rest :=
      if end >= |section.content| then [] else Windows(section.content, NextStart(start, end, overlap), max, overlap);
    assert windows[1..] == rest;
    var text := Strip(section.content[start..end], space);
    assert Stretches(section, windows, space)
        == (if text == "" then [] else [section.(content := text)]) + Stretches(section, rest, space);
  }

  lemma NumberedSnoc(pieces: seq<Section>, piece: Section)
    ensures Numbered(pieces + [piece]) == Numbered(pieces) + [Chunk(piece, |pieces|)]
  {
  }

  lemma NothingFrom(section: Section, start: nat, max: nat, overlap: nat, space: char -> bool)
    requires ValidBounds(max, overlap) && start >= |section.content|
    ensures StretchesFrom(section, start, max, overlap, space) == []
  {
  }

  lemma Regroup(done: seq<Section>, now: seq<Section>, later: seq<Section>)
    ensures done + (now + later) == (done + now) + later
    ensures done + [] == done
  {
  }

  method ChunkSections(sections: seq<Section>, max: int, overlap: int, space: char -> bool) returns (result: Chunked)
    ensures result ==
      if ValidBounds(max, overlap) then Chunks(Numbered(AllStretches(sections, max, overlap, space))) else InvalidBounds
    ensures result.Chunks? ==> forall i :: 0 <= i < |result.chunks| ==> result.chunks[i].ordinal == i
  {
    if max < 1 || overlap < 0 || overlap >= max {
      return InvalidBounds;
    }
    var chunks: seq<Chunk> := [];
    var ordinal: nat := 0;
    ghost var pieces: seq<Section> := [];
    for k := 0 to |sections|
      invariant pieces == AllStretches(sections[..k], max, overlap, space)
      invariant chunks == Numbered(pieces) && ordinal == |chunks|
    {
      var section := sections[k];
      ghost var goal := pieces + StretchesFrom(section, 0, max, overlap, space);
      var start: nat := 0;
      while start < |section.content|
        invariant chunks == Numbered(pieces) && ordinal == |chunks|
        invariant goal == pieces + StretchesFrom(section, start, max, overlap, space)
        decreases |section.content| - start
      {
        var end := WindowEnd(section.content, start, max);
        var text := Strip(section.content[start..end], space);
        ghost var now := if text == "" then [] else [section.(content := text)];
        ghost var later := StretchesAfter(section, end, NextStart(start, end, overlap), max, overlap, space);
        OneWindow(section, start, max, overlap, space);
        Regroup(pieces, now, later);
        Regroup(pieces, [], []);
        Regroup(pieces + now, [], []);
        if text != "" {
          NumberedSnoc(pieces, section.(content := text));
          chunks, ordinal := chunks + [Chunk(section.(content := text), ordinal)], ordinal + 1;
        }
        pieces := pieces + now;
        if end >= |section.content| {
          break;
        }
        start := NextStart(start, end, overlap);
      }
      if start >= |section.content| {
        NothingFrom(section, start, max, overlap, space);
        Regroup(pieces, [], []);
      }
      OneMoreSection(sections, k, max, overlap, space);
    }
    assert sections[..|sections|] == sections;
    result := Chunks(chunks);
  }
}
