/** The few string operations the modelled code relies on, with their laws. */
module Text {

  /** Left-to-right replacement of every occurrence, as `replace` and `replaceAll` do. */
  function ReplaceAll(s: string, target: string, replacement: string): string
    requires target != ""
  {
    if |s| < |target| then s
    else if s[..|target|] == target then replacement + ReplaceAll(s[|target|..], target, replacement)
    else [s[0]] + ReplaceAll(s[1..], target, replacement)
  }

  predicate OccursAt(s: string, target: string, i: nat) {
    i + |target| <= |s| && s[i..i + |target|] == target
  }

  ghost predicate Contains(s: string, target: string) {
    exists i :: OccursAt(s, target, i)
  }

  /** The first occurrence, or -1. */
  function IndexOf(s: string, target: string): (index: int)
    ensures index == -1 ==> forall i: nat :: !OccursAt(s, target, i)
    ensures index != -1 ==>
      0 <= index && OccursAt(s, target, index) && forall i: nat :: i < index ==> !OccursAt(s, target, i)
  {
    if |s| < |target| then -1
    else if s[..|target|] == target then
      assert OccursAt(s, target, 0); 0
    else if s == "" then -1
    else
      var rest := IndexOf(s[1..], target);
      assert forall i: nat :: i >= 1 ==> (OccursAt(s, target, i) <==> OccursAt(s[1..], target, i - 1)) by {
        forall i: nat | i >= 1
          ensures OccursAt(s, target, i) <==> OccursAt(s[1..], target, i - 1)
        {
          OccursBehind(s, target, i - 1);
        }
      }
      if rest == -1 then -1 else rest + 1
  }

  lemma OccursBehind(s: string, target: string, i: nat)
    requires s != ""
    ensures OccursAt(s, target, i + 1) <==> OccursAt(s[1..], target, i)
  {
    if i + 1 + |target| <= |s| {
      assert s[1..][i..i + |target|] == s[i + 1..i + 1 + |target|];
    }
  }

  function Split(s: string, separator: char): (parts: seq<string>)
    ensures parts != []
  {
    if s == "" then [""]
    else
      var rest := Split(s[1..], separator);
      if s[0] == separator then [""] + rest else [[s[0]] + rest[0]] + rest[1..]
  }

  function Join(parts: seq<string>, separator: char): string {
    if parts == [] then ""
    else if |parts| == 1 then parts[0]
    else parts[0] + [separator] + Join(parts[1..], separator)
  }

  function Concat(parts: seq<string>): string {
    if parts == [] then "" else parts[0] + Concat(parts[1..])
  }

  lemma {:induction false} ConcatLast(parts: seq<string>, last: string)
    ensures Concat(parts + [last]) == Concat(parts) + last
  {
    if parts == [] {
      assert parts + [last] == [last];
    } else {
      assert (parts + [last])[1..] == parts[1..] + [last];
      ConcatLast(parts[1..], last);
    }
  }

  lemma JoinCons(first: string, rest: seq<string>, separator: char)
    requires rest != []
    ensures Join([first] + rest, separator) == first + [separator] + Join(rest, separator)
  {
    assert ([first] + rest)[1..] == rest;
  }

  lemma JoinLonger(c: char, parts: seq<string>, separator: char)
    requires parts != []
    ensures Join([[c] + parts[0]] + parts[1..], separator) == [c] + Join(parts, separator)
  {
    var longer := [[c] + parts[0]] + parts[1..];
    assert longer[1..] == parts[1..];
    if |parts| > 1 {
      var tail := [separator] + Join(parts[1..], separator);
      assert Join(parts, separator) == parts[0] + tail;
      assert Join(longer, separator) == ([c] + parts[0]) + tail == [c] + (parts[0] + tail);
    }
  }

  lemma {:induction false} JoinSplit(s: string, separator: char)
    ensures Join(Split(s, separator), separator) == s
    ensures forall i :: 0 <= i < |Split(s, separator)| ==> separator !in Split(s, separator)[i]
    ensures forall i, c :: 0 <= i < |Split(s, separator)| && c in Split(s, separator)[i] ==> c in s
  {
    if s != "" {
      JoinSplit(s[1..], separator);
      var rest := Split(s[1..], separator);
      assert forall c :: c in s[1..] ==> c in s;
      assert s == [s[0]] + s[1..];
      if s[0] == separator {
        JoinCons("", rest, separator);
      } else {
        JoinLonger(s[0], rest, separator);
        assert forall c :: c in [s[0]] + rest[0] ==> c == s[0] || c in rest[0];
      }
    }
  }

  lemma {:induction false} SplitPrefix(part: string, rest: string, separator: char)
    requires separator !in part
    ensures Split(part + [separator] + rest, separator) == [part] + Split(rest, separator)
  {
    var s := part + [separator] + rest;
    if part == "" {
      assert s[1..] == rest;
    } else {
      assert s[1..] == part[1..] + [separator] + rest;
      assert [part[0]] + part[1..] == part;
      assert part[0] in part && forall c :: c in part[1..] ==> c in part;
      SplitPrefix(part[1..], rest, separator);
      assert ([part[1..]] + Split(rest, separator))[1..] == Split(rest, separator);
    }
  }

  lemma {:induction false} SplitSingle(part: string, separator: char)
    requires separator !in part
    ensures Split(part, separator) == [part]
  {
    if part != "" {
      assert [part[0]] + part[1..] == part;
      assert part[0] in part && forall c :: c in part[1..] ==> c in part;
      SplitSingle(part[1..], separator);
    }
  }

  lemma {:induction false} SplitJoin(parts: seq<string>, separator: char)
    requires parts != [] && forall i :: 0 <= i < |parts| ==> separator !in parts[i]
    ensures Split(Join(parts, separator), separator) == parts
  {
    if |parts| == 1 {
      SplitSingle(parts[0], separator);
    } else {
      SplitJoin(parts[1..], separator);
      SplitPrefix(parts[0], Join(parts[1..], separator), separator);
    }
  }

  function StripLeading(s: string, space: char -> bool): string {
    if s != "" && space(s[0]) then StripLeading(s[1..], space) else s
  }

  function StripTrailing(s: string, space: char -> bool): string {
    if s != "" && space(s[|s| - 1]) then StripTrailing(s[..|s| - 1], space) else s
  }

  /** Without the white space at either end. */
  function Strip(s: string, space: char -> bool): string {
    StripTrailing(StripLeading(s, space), space)
  }

  lemma SliceOfSlice(s: string, from: nat, to: nat, low: nat, high: nat)
    requires from <= to <= |s| && low <= high <= to - from
    ensures s[from..to][low..high] == s[from + low..from + high]
  {
    var a, b := s[from..to][low..high], s[from + low..from + high];
    assert forall i :: 0 <= i < |a| ==> a[i] == b[i];
  }

  lemma {:induction false} StripLeadingRange(s: string, space: char -> bool) returns (low: nat)
    ensures low <= |s| && StripLeading(s, space) == s[low..]
    ensures forall i :: 0 <= i < low ==> space(s[i])
  {
    if s != "" && space(s[0]) {
      var rest := StripLeadingRange(s[1..], space);
      low := rest + 1;
      assert s[1..][rest..] == s[low..];
      assert forall i :: 1 <= i < low ==> s[i] == s[1..][i - 1];
    } else {
      low := 0;
    }
  }

  lemma {:induction false} StripTrailingRange(s: string, space: char -> bool) returns (high: nat)
    ensures high <= |s| && StripTrailing(s, space) == s[..high]
    ensures forall i :: high <= i < |s| ==> space(s[i])
  {
    if s != "" && space(s[|s| - 1]) {
      high := StripTrailingRange(s[..|s| - 1], space);
      assert s[..|s| - 1][..high] == s[..high];
    } else {
      high := |s|;
      assert s[..high] == s;
    }
  }

  /** Stripping keeps one range of the text, and drops only white space. */
  lemma StripRange(s: string, space: char -> bool) returns (low: nat, high: nat)
    ensures low <= high <= |s| && Strip(s, space) == s[low..high]
    ensures forall i :: 0 <= i < low || high <= i < |s| ==> space(s[i])
  {
    low := StripLeadingRange(s, space);
    var length := StripTrailingRange(s[low..], space);
    high := low + length;
    assert s[low..][..length] == s[low..high];
    assert forall i :: high <= i < |s| ==> s[i] == s[low..][i - low];
  }

  // ----- Words -----

  /** The characters up to the first white space. */
  function FirstWord(s: string, space: char -> bool): string {
    if s == "" || space(s[0]) then "" else [s[0]] + FirstWord(s[1..], space)
  }

  lemma {:induction false} FirstWordBound(s: string, space: char -> bool)
    ensures FirstWord(s, space) <= s
    ensures forall i :: 0 <= i < |FirstWord(s, space)| ==> !space(s[i])
  {
    if s != "" && !space(s[0]) {
      FirstWordBound(s[1..], space);
      assert s == [s[0]] + s[1..];
    }
  }

  /** The maximal runs without white space, as `split` gives them. */
  function Words(s: string, space: char -> bool): seq<string>
    decreases |s|
  {
    if s == "" then []
    else if space(s[0]) then Words(s[1..], space)
    else
      FirstWordBound(s, space);
      [FirstWord(s, space)] + Words(s[|FirstWord(s, space)|..], space)
  }

  predicate IsWord(word: string, space: char -> bool) {
    word != "" && forall i :: 0 <= i < |word| ==> !space(word[i])
  }

  lemma {:induction false} WordsAreWords(s: string, space: char -> bool)
    ensures forall word :: word in Words(s, space) ==> IsWord(word, space)
    ensures Words(s, space) == [] <==> Join(Words(s, space), ' ') == ""
    decreases |s|
  {
    if s != "" {
      if space(s[0]) {
        WordsAreWords(s[1..], space);
      } else {
        FirstWordBound(s, space);
        WordsAreWords(s[|FirstWord(s, space)|..], space);
      }
    }
  }

  /** The characters that are not white space. */
  function WithoutSpace(s: string, space: char -> bool): string {
    if s == "" then "" else (if space(s[0]) then "" else [s[0]]) + WithoutSpace(s[1..], space)
  }

  lemma {:induction false} WordIsKept(s: string, n: nat, space: char -> bool)
    requires n <= |s| && forall i :: 0 <= i < n ==> !space(s[i])
    ensures WithoutSpace(s, space) == s[..n] + WithoutSpace(s[n..], space)
  {
    if n > 0 {
      WordIsKept(s[1..], n - 1, space);
      assert s[..n] == [s[0]] + s[1..][..n - 1] && s[1..][n - 1..] == s[n..];
    }
  }

  /** Splitting into words loses white space only. */
  lemma {:induction false} WordsKeepText(s: string, space: char -> bool)
    ensures Concat(Words(s, space)) == WithoutSpace(s, space)
    decreases |s|
  {
    if s != "" {
      if space(s[0]) {
        WordsKeepText(s[1..], space);
      } else {
        var n := |FirstWord(s, space)|;
        FirstWordBound(s, space);
        WordIsKept(s, n, space);
        WordsKeepText(s[n..], space);
        assert Words(s, space)[1..] == Words(s[n..], space);
      }
    }
  }

  lemma {:induction false} FirstWordOf(word: string, rest: string, space: char -> bool)
    requires (forall i :: 0 <= i < |word| ==> !space(word[i])) && (rest == "" || space(rest[0]))
    ensures FirstWord(word + rest, space) == word
  {
    var s := word + rest;
    if word == "" {
      assert s == rest;
    } else {
      assert s[1..] == word[1..] + rest;
      FirstWordOf(word[1..], rest, space);
      assert [word[0]] + word[1..] == word;
    }
  }

  lemma {:induction false} WordsJoin(words: seq<string>, space: char -> bool)
    requires space(' ') && forall i :: 0 <= i < |words| ==> IsWord(words[i], space)
    ensures Words(Join(words, ' '), space) == words
  {
    if words != [] {
      var word, rest := words[0], if |words| == 1 then "" else [' '] + Join(words[1..], ' ');
      var s := Join(words, ' ');
      assert s == word + rest;
      FirstWordOf(word, rest, space);
      assert s[|word|..] == rest;
      WordsJoin(words[1..], space);
      assert rest != "" ==> rest[1..] == Join(words[1..], ' ');
      assert Words(rest, space) == words[1..];
    }
  }

  /** Joining the words with single blanks is stable. */
  lemma WordsOfJoined(s: string, space: char -> bool)
    requires space(' ')
    ensures Words(Join(Words(s, space), ' '), space) == Words(s, space)
  {
    WordsAreWords(s, space);
    WordsJoin(Words(s, space), space);
  }
}
