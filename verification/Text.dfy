/** The string operations the services use: `lower`, `strip`, `split`, substring search. Letters are ASCII. */
module Text {
  import opened Prelude

  function LowerChar(c: char): char {
    if 'A' <= c <= 'Z' then c + 32 as char else c
  }

  function Lower(s: string): (r: string)
    ensures |r| == |s|
  {
    if s == "" then "" else [LowerChar(s[0])] + Lower(s[1..])
  }

  /** `str.isspace` */
  predicate IsBlank(c: char) {
    || '\t' <= c <= '\r' || '\U{1C}' <= c <= ' ' || c == '\U{85}' || c == '\U{A0}' || c == '\U{1680}'
    || '\U{2000}' <= c <= '\U{200A}' || c == '\U{2028}' || c == '\U{2029}' || c == '\U{202F}' || c == '\U{205F}'
    || c == '\U{3000}'
  }

  function StripLeft(s: string): string {
    if s != "" && IsBlank(s[0]) then StripLeft(s[1..]) else s
  }

  function StripRight(s: string): string {
    if s != "" && IsBlank(s[|s| - 1]) then StripRight(s[..|s| - 1]) else s
  }

  function Strip(s: string): string {
    StripRight(StripLeft(s))
  }

  predicate OccursAt(whole: string, part: string, i: int) {
    0 <= i <= |whole| - |part| && whole[i..i + |part|] == part
  }

  /** `part in whole` */
  predicate Contains(whole: string, part: string) {
    exists i :: 0 <= i <= |whole| && OccursAt(whole, part, i)
  }

  // --- split() -----------------------------------------------------------------------------------------------------

  /** Length of the word `s` begins with. */
  function WordLength(s: string): (n: nat)
    ensures n <= |s|
    ensures forall i :: 0 <= i < n ==> !IsBlank(s[i])
    ensures n < |s| ==> IsBlank(s[n])
  {
    if s == "" || IsBlank(s[0]) then 0 else 1 + WordLength(s[1..])
  }

  /** `s.split()` */
  function Words(s: string): seq<string>
    decreases |s|
  {
    if s == "" then []
    else if IsBlank(s[0]) then Words(s[1..])
    else
      var n := WordLength(s);
      [s[..n]] + Words(s[n..])
  }

  predicate IsWord(w: string) {
    w != "" && forall i :: 0 <= i < |w| ==> !IsBlank(w[i])
  }

  predicate IsLower(s: string) {
    forall i :: 0 <= i < |s| ==> LowerChar(s[i]) == s[i]
  }

  /** `" ".join(s.strip().lower().split())` */
  function Normalize(s: string): string {
    JoinWith(" ", Words(Lower(Strip(s))))
  }

  lemma {:induction false} WordLengthOf(w: string, rest: string)
    requires IsWord(w) && (rest == "" || IsBlank(rest[0]))
    ensures WordLength(w + rest) == |w|
  {
    var s := w + rest;
    assert forall i :: 0 <= i < |w| ==> s[i] == w[i];
    assert rest != "" ==> s[|w|] == rest[0];
  }

  lemma {:induction false} WordsAreWords(s: string)
    requires IsLower(s)
    ensures forall w :: w in Words(s) ==> IsWord(w) && IsLower(w)
    decreases |s|
  {
    if s != "" {
      if IsBlank(s[0]) {
        WordsAreWords(s[1..]);
      } else {
        var n := WordLength(s);
        WordsAreWords(s[n..]);
        assert IsWord(s[..n]) && IsLower(s[..n]);
      }
    }
  }

  lemma {:induction false} WordsOfJoin(ws: seq<string>)
    requires forall w :: w in ws ==> IsWord(w)
    ensures Words(JoinWith(" ", ws)) == ws
  {
    if |ws| == 1 {
      var w := ws[0];
      assert w in ws;
      WordLengthOf(w, "");
      assert w + "" == w && w[..|w|] == w && w[|w|..] == "";
    } else if |ws| > 1 {
      var w, tail := ws[0], JoinWith(" ", ws[1..]);
      assert w in ws;
      WordsOfJoin(ws[1..]);
      var s := w + " " + tail;
      assert s == w + (" " + tail);
      WordLengthOf(w, " " + tail);
      assert s[..|w|] == w && s[|w|..] == " " + tail;
      assert s[0] == w[0];
      assert (" " + tail)[1..] == tail;
      assert Words(" " + tail) == Words(tail);
      assert Words(s) == [w] + Words(tail);
      assert [w] + ws[1..] == ws;
    }
  }

  lemma {:induction false} LowerOfLower(s: string)
    requires IsLower(s)
    ensures Lower(s) == s
  {
    if s != "" {
      LowerOfLower(s[1..]);
    }
  }

  lemma {:induction false} LowerIsLower(s: string)
    ensures IsLower(Lower(s))
  {
    if s != "" {
      LowerIsLower(s[1..]);
      assert forall i :: 1 <= i < |s| ==> Lower(s)[i] == Lower(s[1..])[i - 1];
    }
  }

  lemma {:induction false} JoinShape(ws: seq<string>)
    requires forall w :: w in ws ==> IsWord(w) && IsLower(w)
    ensures var s := JoinWith(" ", ws);
            && IsLower(s)
            && (ws != [] ==> s != "" && !IsBlank(s[0]) && !IsBlank(s[|s| - 1]))
  {
    if |ws| == 1 {
      assert ws[0] in ws;
    } else if |ws| > 1 {
      assert ws[0] in ws;
      JoinShape(ws[1..]);
    }
  }

  /** A normalised text is its own normal form. */
  lemma NormalizeIdempotent(s: string)
    ensures Normalize(Normalize(s)) == Normalize(s)
  {
    var low := Lower(Strip(s));
    LowerIsLower(Strip(s));
    WordsAreWords(low);
    var ws := Words(low);
    JoinShape(ws);
    var n := Normalize(s);
    assert Strip(n) == n;
    LowerOfLower(n);
    WordsOfJoin(ws);
  }

  // --- What lowering and trimming mean -----------------------------------------------------------------------------

  /** The same letter, in whichever case, or the same character. */
  predicate SameLetter(c: char, d: char) {
    || c == d
    || ('a' <= c <= 'z' && c as int - d as int == 'a' as int - 'A' as int)
    || ('a' <= d <= 'z' && d as int - c as int == 'a' as int - 'A' as int)
  }

  predicate SameText(s: string, t: string) {
    |s| == |t| && forall i :: 0 <= i < |s| ==> SameLetter(s[i], t[i])
  }

  lemma {:induction false} LowerAt(s: string, i: nat)
    requires i < |s|
    ensures Lower(s)[i] == LowerChar(s[i])
  {
    if i > 0 {
      LowerAt(s[1..], i - 1);
    }
  }

  lemma LowersAlike(c: char, d: char)
    ensures LowerChar(c) == LowerChar(d) <==> SameLetter(c, d)
  {
  }

  /** Two texts are lowered alike exactly if they differ in the case of letters only. */
  lemma LowerMeans(s: string, t: string)
    ensures Lower(s) == Lower(t) <==> SameText(s, t)
  {
    hide Lower, LowerChar, SameLetter;
    forall i | 0 <= i < |s|
      ensures Lower(s)[i] == LowerChar(s[i])
    {
      LowerAt(s, i);
    }
    forall i | 0 <= i < |t|
      ensures Lower(t)[i] == LowerChar(t[i])
    {
      LowerAt(t, i);
    }
    forall i | 0 <= i < |s| && i < |t|
      ensures LowerChar(s[i]) == LowerChar(t[i]) <==> SameLetter(s[i], t[i])
    {
      LowersAlike(s[i], t[i]);
    }
    if |s| == |t| && SameText(s, t) {
      assert forall i :: 0 <= i < |s| ==> Lower(s)[i] == Lower(t)[i];
    }
    if Lower(s) == Lower(t) {
      assert |s| == |t|;
      assert forall i :: 0 <= i < |s| ==> LowerChar(s[i]) == Lower(s)[i] && LowerChar(t[i]) == Lower(t)[i];
    }
  }

  /** The text is written at position `i`, in whichever case. */
  predicate WrittenAt(whole: string, part: string, i: int) {
    0 <= i <= |whole| - |part| && SameText(whole[i..i + |part|], part)
  }

  predicate Mentions(whole: string, part: string) {
    exists i :: 0 <= i <= |whole| && WrittenAt(whole, part, i)
  }

  lemma Middle(x: string, y: string, z: string, i: nat, j: nat)
    requires |x| == i && |y| == j - i
    ensures (x + y + z)[i..j] == y
  {
  }

  lemma LowerThree(x: string, y: string, z: string)
    ensures Lower(x + y + z) == Lower(x) + Lower(y) + Lower(z)
  {
    hide Lower;
    LowerAppend(x + y, z);
    LowerAppend(x, y);
  }

  lemma Cut(s: string, i: nat, j: nat)
    requires i <= j <= |s|
    ensures s == s[..i] + s[i..j] + s[j..]
  {
  }

  lemma LowerPart(s: string, i: nat, j: nat)
    requires i <= j <= |s|
    ensures Lower(s)[i..j] == Lower(s[i..j])
  {
    hide Lower;
    Cut(s, i, j);
    LowerThree(s[..i], s[i..j], s[j..]);
    Middle(Lower(s[..i]), Lower(s[i..j]), Lower(s[j..]), i, j);
  }

  /** Looking for a lower-case text in a lowered one finds it in whichever case. */
  lemma LoweredContains(s: string, m: string)
    requires IsLower(m)
    ensures Contains(Lower(s), m) <==> Mentions(s, m)
  {
    hide Lower, SameText, IsLower;
    LowerOfLower(m);
    forall i | 0 <= i <= |s| - |m|
      ensures OccursAt(Lower(s), m, i) <==> WrittenAt(s, m, i)
    {
      LowerPart(s, i, i + |m|);
      LowerMeans(s[i..i + |m|], m);
    }
    if Contains(Lower(s), m) {
      var i :| 0 <= i <= |Lower(s)| && OccursAt(Lower(s), m, i);
      assert WrittenAt(s, m, i);
    }
    if Mentions(s, m) {
      var i :| 0 <= i <= |s| && WrittenAt(s, m, i);
      assert OccursAt(Lower(s), m, i);
    }
  }

  predicate AllBlank(s: string) {
    forall i :: 0 <= i < |s| ==> IsBlank(s[i])
  }

  /** Neither begins nor ends with a blank. */
  predicate IsTrimmed(s: string) {
    s == "" || (!IsBlank(s[0]) && !IsBlank(s[|s| - 1]))
  }

  lemma {:induction false} StripLeftOf(l: string, t: string)
    requires AllBlank(l) && (t == "" || !IsBlank(t[0]))
    ensures StripLeft(l + t) == t
  {
    if l == "" {
      assert l + t == t;
    } else {
      assert (l + t)[0] == l[0] && (l + t)[1..] == l[1..] + t;
      StripLeftOf(l[1..], t);
    }
  }

  lemma {:induction false} StripRightOf(t: string, r: string)
    requires AllBlank(r) && (t == "" || !IsBlank(t[|t| - 1]))
    ensures StripRight(t + r) == t
  {
    if r == "" {
      assert t + r == t;
    } else {
      var s := t + r;
      assert s[|s| - 1] == r[|r| - 1] && s[..|s| - 1] == t + r[..|r| - 1];
      StripRightOf(t, r[..|r| - 1]);
    }
  }

  /** What is left after blanks on both sides are taken away, and only then. */
  lemma StripMeans(l: string, t: string, r: string)
    requires AllBlank(l) && AllBlank(r) && IsTrimmed(t)
    ensures Strip(l + t + r) == t
  {
    if t == "" {
      var blank := l + r;
      assert l + t + r == blank + "" && AllBlank(blank);
      StripLeftOf(blank, "");
    } else {
      assert l + t + r == l + (t + r) && (t + r)[0] == t[0];
      StripLeftOf(l, t + r);
      StripRightOf(t, r);
    }
  }

  lemma {:induction false} LeftBlanks(s: string) returns (l: string)
    ensures AllBlank(l) && s == l + StripLeft(s) && (StripLeft(s) == "" || !IsBlank(StripLeft(s)[0]))
  {
    if s != "" && IsBlank(s[0]) {
      l := LeftBlanks(s[1..]);
      assert s == [s[0]] + s[1..];
      l := [s[0]] + l;
    } else {
      l := "";
      assert s == "" + s;
    }
  }

  lemma {:induction false} RightBlanks(s: string) returns (r: string)
    ensures AllBlank(r) && s == StripRight(s) + r
        && (StripRight(s) == "" || !IsBlank(StripRight(s)[|StripRight(s)| - 1]))
  {
    if s != "" && IsBlank(s[|s| - 1]) {
      r := RightBlanks(s[..|s| - 1]);
      assert s == s[..|s| - 1] + [s[|s| - 1]];
      r := r + [s[|s| - 1]];
    } else {
      r := "";
      assert s == s + "";
    }
  }

  /** Every text is a trimmed one between blanks. */
  lemma StripLeaves(s: string) returns (l: string, r: string)
    ensures AllBlank(l) && AllBlank(r) && IsTrimmed(Strip(s)) && s == l + Strip(s) + r
  {
    l := LeftBlanks(s);
    var t := StripLeft(s);
    r := RightBlanks(t);
    var u := StripRight(t);
    assert u != "" ==> u[0] == t[0];
  }

  // --- What normalising means --------------------------------------------------------------------------------------

  function Lowered(ws: seq<string>): (r: seq<string>)
    ensures |r| == |ws| && forall i :: 0 <= i < |ws| ==> r[i] == Lower(ws[i])
  {
    seq(|ws|, i requires 0 <= i < |ws| => Lower(ws[i]))
  }

  lemma {:induction false} LowerAppend(s: string, t: string)
    ensures Lower(s + t) == Lower(s) + Lower(t)
  {
    if s == "" {
      assert s + t == t;
    } else {
      assert (s + t)[1..] == s[1..] + t;
      LowerAppend(s[1..], t);
    }
  }

  lemma LowerKeepsBlanks(c: char)
    ensures IsBlank(LowerChar(c)) <==> IsBlank(c)
  {
  }

  lemma {:induction false} WordsLower(s: string)
    ensures Words(Lower(s)) == Lowered(Words(s))
    decreases |s|
  {
    hide IsBlank, LowerChar, Lower;
    if s != "" {
      LowerKeepsBlanks(s[0]);
      LowerAt(s, 0);
      if IsBlank(s[0]) {
        LowerTail(s, 1);
        WordsLower(s[1..]);
      } else {
        WordsLower(s[WordLength(s)..]);
        FirstWordLower(s);
      }
    }
  }

  lemma LowerTail(s: string, n: nat)
    requires n <= |s|
    ensures Lower(s)[n..] == Lower(s[n..]) && Lower(s)[..n] == Lower(s[..n])
  {
    hide Lower;
    assert s == s[..n] + s[n..];
    LowerAppend(s[..n], s[n..]);
  }

  lemma FirstWordLower(s: string)
    requires s != "" && !IsBlank(s[0])
    requires Words(Lower(s[WordLength(s)..])) == Lowered(Words(s[WordLength(s)..]))
    ensures Words(Lower(s)) == Lowered(Words(s))
  {
    hide IsBlank, LowerChar, Lower;
    var n := WordLength(s);
    LowerKeepsBlanks(s[0]);
    LowerAt(s, 0);
    LowerTail(s, n);
    SameWordLength(s);
    assert Words(Lower(s)) == [Lower(s[..n])] + Words(Lower(s[n..]));
    assert Words(s) == [s[..n]] + Words(s[n..]);
  }

  lemma SameWordLength(s: string)
    ensures WordLength(Lower(s)) == WordLength(s)
  {
    hide IsBlank, LowerChar, Lower;
    var m, n := WordLength(Lower(s)), WordLength(s);
    forall i | 0 <= i < |s|
      ensures IsBlank(Lower(s)[i]) <==> IsBlank(s[i])
    {
      LowerAt(s, i);
      LowerKeepsBlanks(s[i]);
    }
    assert m < |s| ==> IsBlank(Lower(s)[m]);
    assert n < |s| ==> IsBlank(s[n]);
  }

  lemma {:induction false} WordsAfterBlanks(l: string, t: string)
    requires AllBlank(l)
    ensures Words(l + t) == Words(t)
  {
    if l == "" {
      assert l + t == t;
    } else {
      assert (l + t)[0] == l[0] && (l + t)[1..] == l[1..] + t;
      WordsAfterBlanks(l[1..], t);
    }
  }

  lemma {:induction false} WordsBeforeBlanks(t: string, r: string)
    requires AllBlank(r)
    ensures Words(t + r) == Words(t)
    decreases |t|
  {
    hide IsBlank;
    if t == "" {
      assert t + r == r + "";
      WordsAfterBlanks(r, "");
    } else if IsBlank(t[0]) {
      assert (t + r)[0] == t[0] && (t + r)[1..] == t[1..] + r;
      WordsBeforeBlanks(t[1..], r);
    } else {
      var n := WordLength(t);
      assert t[..n] + (t[n..] + r) == t + r;
      assert IsWord(t[..n]);
      assert t[n..] + r == "" || IsBlank((t[n..] + r)[0]);
      WordLengthOf(t[..n], t[n..] + r);
      assert (t + r)[0] == t[0] && (t + r)[..n] == t[..n] && (t + r)[n..] == t[n..] + r;
      WordsBeforeBlanks(t[n..], r);
    }
  }

  lemma WordsOfStripped(s: string)
    ensures Words(Strip(s)) == Words(s)
  {
    hide Strip, Words, IsBlank;
    var l, r := StripLeaves(s);
    WordsBeforeBlanks(l + Strip(s), r);
    WordsAfterBlanks(l, Strip(s));
  }

  /** Two texts have the same normal form exactly if they consist of the same words but for the case of letters. */
  lemma NormalizeMeans(s: string, t: string)
    ensures Normalize(s) == Normalize(t) <==>
            |Words(s)| == |Words(t)| && forall k :: 0 <= k < |Words(s)| ==> SameText(Words(s)[k], Words(t)[k])
  {
    hide Words, Lower, Strip, SameText, IsWord;
    NormalWords(s);
    NormalWords(t);
    if Normalize(s) == Normalize(t) {
      assert Lowered(Words(s)) == Lowered(Words(t));
    }
    forall k | 0 <= k < |Words(s)| && k < |Words(t)|
      ensures Lower(Words(s)[k]) == Lower(Words(t)[k]) <==> SameText(Words(s)[k], Words(t)[k])
    {
      LowerMeans(Words(s)[k], Words(t)[k]);
    }
    if |Words(s)| == |Words(t)| && forall k :: 0 <= k < |Words(s)| ==> SameText(Words(s)[k], Words(t)[k]) {
      assert Lowered(Words(s)) == Lowered(Words(t));
    }
  }

  lemma NormalWords(s: string)
    ensures Normalize(s) == JoinWith(" ", Lowered(Words(s))) && Words(Normalize(s)) == Lowered(Words(s))
  {
    hide Words, Lower, Strip, IsBlank;
    WordsLower(Strip(s));
    WordsOfStripped(s);
    LowerIsLower(Strip(s));
    WordsAreWords(Lower(Strip(s)));
    WordsOfJoin(Lowered(Words(s)));
  }

  function WithoutBlanks(s: string): string {
    if s == "" then "" else (if IsBlank(s[0]) then "" else [s[0]]) + WithoutBlanks(s[1..])
  }

  /** How many characters are not blank but follow a blank, or begin the text. */
  function WordStarts(s: string, afterBlank: bool): nat {
    if s == "" then 0
    else (if afterBlank && !IsBlank(s[0]) then 1 else 0) + WordStarts(s[1..], IsBlank(s[0]))
  }

  /** The words of a text are its maximal parts without blanks, in order. */
  lemma {:induction false} WordsMeans(s: string)
    ensures Concat(Words(s)) == WithoutBlanks(s) && |Words(s)| == WordStarts(s, true)
    decreases |s|
  {
    hide IsBlank;
    if s != "" {
      if IsBlank(s[0]) {
        WordsMeans(s[1..]);
      } else {
        var n := WordLength(s);
        WordsMeans(s[n..]);
        assert Words(s)[1..] == Words(s[n..]);
        NoBlanksIn(s, n);
        NoStartsIn(s[1..], n - 1);
        assert s[1..][n - 1..] == s[n..];
        EndOfWord(s[n..]);
      }
    }
  }

  lemma {:induction false} NoBlanksIn(s: string, n: nat)
    requires n <= |s| && forall i :: 0 <= i < n ==> !IsBlank(s[i])
    ensures WithoutBlanks(s) == s[..n] + WithoutBlanks(s[n..])
  {
    hide IsBlank;
    if n == 0 {
      assert s[0..] == s && s[..0] == "";
    } else {
      NoBlanksIn(s[1..], n - 1);
      assert s[1..][n - 1..] == s[n..];
      assert s[..n] == [s[0]] + s[1..][..n - 1];
    }
  }

  lemma {:induction false} NoStartsIn(s: string, n: nat)
    requires n <= |s| && forall i :: 0 <= i < n ==> !IsBlank(s[i])
    ensures WordStarts(s, false) == WordStarts(s[n..], false)
  {
    hide IsBlank;
    if n == 0 {
      assert s[0..] == s;
    } else {
      NoStartsIn(s[1..], n - 1);
      assert s[1..][n - 1..] == s[n..];
    }
  }

  lemma EndOfWord(s: string)
    requires s == "" || IsBlank(s[0])
    ensures WordStarts(s, false) == WordStarts(s, true)
  {
  }
}
