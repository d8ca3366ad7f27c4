/** Folder titles and display names (internal/telegram/dialogs/dialogs.go and
    internal/telegram/folders/folders.go): a channel is a folder when its title carries the
    marker "[TC]" in any case.  Letters and blanks are the ASCII ones. */
module Titles {

  const MARKER := "[TC]"
  const LOWER_MARKER := "[tc]"

  function LowerChar(c: char): char {
    if 'A' <= c <= 'Z' then (c as int + 32) as char else c
  }

  function ToLower(s: string): (r: string)
    ensures |r| == |s|
  {
    seq(|s|, i requires 0 <= i < |s| => LowerChar(s[i]))
  }

  predicate Blank(c: char) {
    c == ' ' || c == '\t' || c == '\n' || c == '\r' || c as int == 11 || c as int == 12
  }

  /** strings.TrimSpace */
  function Trim(s: string): (r: string)
    ensures |r| <= |s|
    ensures r != "" ==> !Blank(r[0]) && !Blank(r[|r| - 1])
  {
    if s == "" then ""
    else if Blank(s[0]) then Trim(s[1..])
    else if Blank(s[|s| - 1]) then Trim(s[..|s| - 1])
    else s
  }

  /** A marker, in any case, begins at position i. */
  predicate MarkerAt(s: string, i: nat) {
    i + 4 <= |s| && ToLower(s)[i..i + 4] == LOWER_MARKER
  }

  /** strings.Index(lower, lowerMarker): the first marker, or -1. */
  function Index(lower: string, from: nat := 0): (i: int)
    requires from <= |lower|
    ensures i == -1 || from <= i <= |lower| - 4
    ensures i >= 0 ==> lower[i..i + 4] == LOWER_MARKER
    ensures forall k {:trigger lower[k..k + 4]} ::
              from <= k <= |lower| - 4 && (i < 0 || k < i) ==> lower[k..k + 4] != LOWER_MARKER
    decreases |lower| - from
  {
    if from + 4 > |lower| then -1
    else if lower[from..from + 4] == LOWER_MARKER then from
    else Index(lower, from + 1)
  }

  predicate IsFolderTitle(title: string) {
    Index(ToLower(title)) >= 0
  }

  /** Reads a title from left to right and leaves the markers out. */
  function Strip(s: string): string {
    if s == "" then ""
    else if MarkerAt(s, 0) then Strip(s[4..])
    else [s[0]] + Strip(s[1..])
  }

  /** How many markers that reading meets. */
  function Count(s: string): nat {
    if s == "" then 0
    else if MarkerAt(s, 0) then 1 + Count(s[4..])
    else Count(s[1..])
  }

  function Display(title: string): string {
    Trim(Strip(title))
  }

  function FolderName(displayName: string): string {
    var clean := Trim(Display(displayName));
    if clean == "" then MARKER else clean + " " + MARKER
  }

  /** A marker is [TC] in any mixture of cases. */
  lemma MarkerChars(s: string, i: nat)
    ensures MarkerAt(s, i) <==>
            && i + 4 <= |s|
            && s[i] == '[' && (s[i + 1] == 't' || s[i + 1] == 'T') && (s[i + 2] == 'c' || s[i + 2] == 'C')
            && s[i + 3] == ']'
  {
    if i + 4 <= |s| {
      var l := ToLower(s)[i..i + 4];
      assert forall k | 0 <= k < 4 :: l[k] == LowerChar(s[i + k]);
      assert l == LOWER_MARKER <==> l[0] == '[' && l[1] == 't' && l[2] == 'c' && l[3] == ']';
      LowerIs(s[i], '[');
      LowerIs(s[i + 1], 't');
      LowerIs(s[i + 2], 'c');
      LowerIs(s[i + 3], ']');
    }
  }

  lemma LowerIs(c: char, d: char)
    requires d == '[' || d == ']' || d == 't' || d == 'c'
    ensures LowerChar(c) == d <==> c == d || (d == 't' && c == 'T') || (d == 'c' && c == 'C')
  {
  }

  /** The text of s from i to j, with nothing but blanks around it. */
  predicate Middle(s: string, i: nat, j: nat) {
    && i <= j <= |s|
    && (forall k | 0 <= k < i :: Blank(s[k]))
    && (forall k | j <= k < |s| :: Blank(s[k]))
  }

  lemma TailSlice(s: string, i: nat, j: nat)
    requires s != "" && i <= j <= |s| - 1
    ensures s[i + 1..j + 1] == s[1..][i..j]
  {
    var a, b := s[i + 1..j + 1], s[1..][i..j];
    forall k | 0 <= k < j - i
      ensures a[k] == b[k]
    {
      assert a[k] == s[i + 1 + k] && b[k] == s[1..][i + k];
    }
    assert |a| == |b| == j - i;
  }

  lemma MiddleOfTail(s: string, i: nat, j: nat)
    requires s != "" && Blank(s[0]) && Middle(s[1..], i, j)
    ensures Middle(s, i + 1, j + 1) && s[i + 1..j + 1] == s[1..][i..j]
  {
    forall k | 0 <= k < i + 1 || j + 1 <= k < |s|
      ensures Blank(s[k])
    {
      if k > 0 {
        assert s[k] == s[1..][k - 1];
      }
    }
    TailSlice(s, i, j);
  }

  lemma MiddleOfFront(s: string, i: nat, j: nat)
    requires s != "" && Blank(s[|s| - 1]) && Middle(s[..|s| - 1], i, j)
    ensures Middle(s, i, j) && s[i..j] == s[..|s| - 1][i..j]
  {
    forall k | 0 <= k < i || j <= k < |s|
      ensures Blank(s[k])
    {
      if k < |s| - 1 {
        assert s[k] == s[..|s| - 1][k];
      }
    }
  }

  /** Trimming cuts blanks off both ends, all of them and nothing else. */
  lemma {:induction false} TrimIsMiddle(s: string) returns (i: nat, j: nat)
    ensures Middle(s, i, j) && Trim(s) == s[i..j]
    ensures Trim(s) != "" ==> !Blank(Trim(s)[0]) && !Blank(Trim(s)[|Trim(s)| - 1])
    decreases |s|
  {
    if s != "" && Blank(s[0]) {
      var a, b := TrimIsMiddle(s[1..]);
      MiddleOfTail(s, a, b);
      i, j := a + 1, b + 1;
    } else if s != "" && Blank(s[|s| - 1]) {
      i, j := TrimIsMiddle(s[..|s| - 1]);
      MiddleOfFront(s, i, j);
    } else {
      i, j := 0, |s|;
      assert s[0..|s|] == s;
    }
  }

  // ----- what stripping leaves

  function Join(parts: seq<string>): string {
    if |parts| == 0 then "" else parts[0] + Join(parts[1..])
  }

  /** A title taken apart: pieces of text with a marker after each but the last. */
  function Weave(parts: seq<string>, marks: seq<string>): string
    requires |parts| == |marks| + 1
  {
    if |marks| == 0 then parts[0] else parts[0] + marks[0] + Weave(parts[1..], marks[1..])
  }

  /** Every mark is a marker, and the first one where it stands: none starts in the piece before. */
  predicate Cut(parts: seq<string>, marks: seq<string>) {
    && |parts| == |marks| + 1
    && (forall i | 0 <= i < |marks| :: |marks[i]| == 4 && MarkerAt(marks[i], 0))
    && (forall i, k | 0 <= i < |marks| && 0 <= k < |parts[i]| :: !MarkerAt(parts[i] + marks[i], k))
    && (forall k | 0 <= k < |parts[|marks|]| :: !MarkerAt(parts[|marks|], k))
  }

  /** A title comes apart at its markers, read from the left, and stripping leaves the pieces: their
      characters, all of them, in their order. */
  lemma {:induction false} StripLeavesPieces(s: string) returns (parts: seq<string>, marks: seq<string>)
    ensures Cut(parts, marks) && Weave(parts, marks) == s && Join(parts) == Strip(s) && |marks| == Count(s)
  {
    if s == "" {
      parts, marks := [""], [];
      assert parts[1..] == [];
    } else if MarkerAt(s, 0) {
      var ps, ms := StripLeavesPieces(s[4..]);
      parts, marks := [""] + ps, [s[..4]] + ms;
      assert parts[1..] == ps && marks[1..] == ms && s == s[..4] + s[4..];
      MarkerOfPrefix(s, 4, 0);
      CutBehind(ps, ms, s[..4]);
    } else {
      var ps, ms := StripLeavesPieces(s[1..]);
      parts, marks := ps[0 := [s[0]] + ps[0]], ms;
      assert parts[1..] == ps[1..];
      WeaveFront(ps, ms, [s[0]]);
      assert s == [s[0]] + s[1..];
      CutFront(ps, ms, s);
    }
  }

  lemma MarkerOfPrefix(s: string, n: nat, k: nat)
    requires k + 4 <= n <= |s|
    ensures MarkerAt(s[..n], k) <==> MarkerAt(s, k)
  {
    MarkerChars(s, k);
    MarkerChars(s[..n], k);
  }

  lemma CutBehind(ps: seq<string>, ms: seq<string>, mark: string)
    requires Cut(ps, ms) && |mark| == 4 && MarkerAt(mark, 0)
    ensures Cut([""] + ps, [mark] + ms)
  {
    var parts, marks := [""] + ps, [mark] + ms;
    forall i, k | 0 <= i < |marks| && 0 <= k < |parts[i]|
      ensures !MarkerAt(parts[i] + marks[i], k)
    {
      assert parts[i] == ps[i - 1] && marks[i] == ms[i - 1];
    }
    assert parts[|marks|] == ps[|ms|];
  }

  lemma WeaveFront(ps: seq<string>, ms: seq<string>, c: string)
    requires |ps| == |ms| + 1
    ensures Weave(ps[0 := c + ps[0]], ms) == c + Weave(ps, ms)
    ensures Join(ps[0 := c + ps[0]]) == c + Join(ps)
  {
    assert ps[0 := c + ps[0]][1..] == ps[1..];
    if |ms| > 0 {
      assert c + ps[0] + ms[0] + Weave(ps[1..], ms[1..]) == c + (ps[0] + ms[0] + Weave(ps[1..], ms[1..]));
    }
    assert c + ps[0] + Join(ps[1..]) == c + (ps[0] + Join(ps[1..]));
  }

  /** The first piece with its marker, or alone, is where the title begins. */
  lemma FirstPiece(ps: seq<string>, ms: seq<string>)
    requires |ps| == |ms| + 1
    ensures var head := if |ms| > 0 then ps[0] + ms[0] else ps[0];
            |head| <= |Weave(ps, ms)| && Weave(ps, ms)[..|head|] == head
  {
  }

  lemma CutFront(ps: seq<string>, ms: seq<string>, s: string)
    requires Cut(ps, ms) && s != "" && Weave(ps, ms) == s[1..] && !MarkerAt(s, 0)
    ensures Cut(ps[0 := [s[0]] + ps[0]], ms)
  {
    var parts := ps[0 := [s[0]] + ps[0]];
    var head := if |ms| > 0 then ps[0] + ms[0] else ps[0];
    FirstPiece(ps, ms);
    var longer := [s[0]] + head;
    assert longer == s[..|longer|];
    forall k | 0 <= k < |parts[0]|
      ensures !MarkerAt(longer, k)
    {
      if k == 0 {
        if |longer| >= 4 {
          MarkerOfPrefix(s, |longer|, 0);
        }
      } else {
        MarkerInTail(longer, 1, k);
        assert longer[1..] == head;
      }
    }
    assert |ms| > 0 ==> parts[0] + ms[0] == longer;
    assert |ms| == 0 ==> parts[0] == longer;
  }

  /** A plain name gets the marker behind a blank. */
  lemma PlainName(x: string)
    requires Trim(x) == x && x != "" && !IsFolderTitle(x)
    ensures FolderName(x) == x + " [TC]"
  {
    DisplayShortens(x);
    assert x + " " + MARKER == x + " [TC]";
  }

  lemma LowerSlice(s: string, i: nat)
    requires i <= |s|
    ensures ToLower(s)[i..] == ToLower(s[i..])
  {
  }

  lemma MarkerInTail(s: string, i: nat, j: nat)
    requires i <= j <= |s|
    ensures MarkerAt(s, j) <==> MarkerAt(s[i..], j - i)
  {
    LowerSlice(s, i);
    if j + 4 <= |s| {
      assert ToLower(s)[j..j + 4] == ToLower(s[i..])[j - i..j - i + 4];
    }
  }

  /** Reading up to the first marker copies what is read. */
  lemma {:induction false} StripUpTo(s: string, i: nat)
    requires i <= |s| && forall k | 0 <= k < i :: !MarkerAt(s, k)
    ensures Strip(s) == s[..i] + Strip(s[i..])
  {
    if i > 0 {
      forall k | 0 <= k < i - 1
        ensures !MarkerAt(s[1..], k)
      {
        MarkerInTail(s, 1, k + 1);
      }
      StripUpTo(s[1..], i - 1);
      assert s[1..][i - 1..] == s[i..];
      assert s[..i] == [s[0]] + s[1..][..i - 1];
    } else {
      assert s[i..] == s;
    }
  }

  /** The loop of DisplayName: find a marker in the lowered copy, write what precedes it, cut both
      strings behind it.  The two stay in step, and what is written is the title without markers. */
  method DisplayName(title: string) returns (name: string)
    ensures name == Display(title)
  {
    var rest, lower := title, ToLower(title);
    var b := "";
    while true
      invariant lower == ToLower(rest)
      invariant b + Strip(rest) == Strip(title)
      decreases |rest|
    {
      var i := Index(lower);
      if i < 0 {
        forall k | 0 <= k < |rest|
          ensures !MarkerAt(rest, k)
        {
        }
        StripUpTo(rest, |rest|);
        assert rest[..|rest|] == rest && rest[|rest|..] == "" && rest + "" == rest;
        assert Strip(rest) == rest;
        b := b + rest;
        break;
      }
      forall k | 0 <= k < i
        ensures !MarkerAt(rest, k)
      {
      }
      StripUpTo(rest, i);
      MarkerInTail(rest, i, i);
      assert rest[i..][4..] == rest[i + 4..];
      LowerSlice(rest, i + 4);
      assert b + (rest[..i] + Strip(rest[i + 4..])) == (b + rest[..i]) + Strip(rest[i + 4..]);
      b := b + rest[..i];
      rest, lower := rest[i + 4..], lower[i + 4..];
    }
    name := Trim(b);
  }

  // ----- what stripping removes

  /** Exactly four characters go for each marker met, and a title has markers to meet exactly when
      it is a folder title. */
  lemma {:induction false} StripCounts(s: string)
    ensures |s| == |Strip(s)| + 4 * Count(s)
    ensures Count(s) == 0 ==> Strip(s) == s
    ensures Count(s) > 0 <==> IsFolderTitle(s)
  {
    StripCountsLength(s);
    assert IsFolderTitle(s) ==> exists k: nat :: k < |s| && MarkerAt(s, k) by {
      if IsFolderTitle(s) {
        assert MarkerAt(s, Index(ToLower(s)));
      }
    }
    if Count(s) == 0 {
      CountZero(s);
    } else {
      var k := CountPositive(s);
      assert ToLower(s)[k..k + 4] == LOWER_MARKER;
    }
  }

  lemma {:induction false} StripCountsLength(s: string)
    ensures |s| == |Strip(s)| + 4 * Count(s)
  {
    if s != "" {
      StripCountsLength(if MarkerAt(s, 0) then s[4..] else s[1..]);
    }
  }

  lemma {:induction false} CountZero(s: string)
    requires Count(s) == 0
    ensures Strip(s) == s
    ensures forall k | 0 <= k < |s| :: !MarkerAt(s, k)
  {
    if s != "" {
      CountZero(s[1..]);
      forall k | 0 < k < |s|
        ensures !MarkerAt(s, k)
      {
        MarkerInTail(s, 1, k);
      }
    }
  }

  lemma {:induction false} CountPositive(s: string) returns (k: nat)
    requires Count(s) > 0
    ensures MarkerAt(s, k)
  {
    if MarkerAt(s, 0) {
      k := 0;
    } else {
      var j := CountPositive(s[1..]);
      k := j + 1;
      MarkerInTail(s, 1, k);
    }
  }

  /** A marker appended behind a blank is not the one at the front. */
  lemma MarkerBehindBlank(s: string)
    requires s != ""
    ensures MarkerAt(s + " " + MARKER, 0) == MarkerAt(s, 0)
  {
    var t := s + " " + MARKER;
    if |s| < 4 {
      assert ToLower(t)[0..4][|s|] == ' ';
    } else {
      assert ToLower(t)[0..4] == ToLower(s)[0..4];
    }
  }

  /** A blank keeps the marker behind it apart from everything before it. */
  lemma {:induction false} StripMarked(s: string)
    ensures Strip(s + " " + MARKER) == Strip(s) + " "
  {
    var t := s + " " + MARKER;
    if s == "" {
      assert t == " [TC]" && t[1..] == MARKER;
      Unfold(t);
      StripOfMarker();
    } else {
      MarkerBehindBlank(s);
      var n := if MarkerAt(s, 0) then 4 else 1;
      StripMarked(s[n..]);
      assert t[n..] == s[n..] + " " + MARKER;
    }
  }

  lemma {:induction false} TrimBlankEnd(s: string)
    ensures Trim(s + " ") == Trim(s)
  {
    var t := s + " ";
    if s == "" {
      assert t == " " && t[1..] == "";
    } else if Blank(s[0]) {
      TrimBlankEnd(s[1..]);
      assert t[0] == s[0] && t[1..] == s[1..] + " ";
      assert Trim(t) == Trim(t[1..]);
    } else {
      assert t[0] == s[0] && t[|t| - 1] == ' ' && t[..|t| - 1] == s;
      assert Trim(t) == Trim(t[..|t| - 1]);
    }
  }

  lemma TrimTwice(s: string)
    ensures Trim(Trim(s)) == Trim(s)
  {
  }

  /** Displaying can only shorten, by four for each marker, and leaves a trimmed plain name alone. */
  lemma DisplayShortens(s: string)
    ensures |Display(s)| + 4 * Count(s) <= |s|
    ensures !IsFolderTitle(s) ==> Display(s) == Trim(s)
  {
    StripCounts(s);
  }

  /** What is displayed of a title made from a name is the displayed name, displayed once more. */
  lemma DisplayOfFolderName(x: string)
    ensures Display(FolderName(x)) == Display(Display(x))
  {
    var d := Display(x);
    TrimTwice(Strip(x));
    if d == "" {
      assert MARKER[4..] == "" && ToLower(MARKER)[0..4] == LOWER_MARKER;
    } else {
      StripMarked(d);
      TrimBlankEnd(Strip(d));
    }
  }

  // ----- the codec

  /** Every title the service makes is discovered as a folder. */
  lemma FolderNameIsFolderTitle(x: string)
    ensures IsFolderTitle(FolderName(x))
  {
    var d := Display(x);
    TrimTwice(Strip(x));
    if d == "" {
      StripOfMarker();
      StripCounts(MARKER);
    } else {
      StripMarked(d);
      StripCounts(d + " " + MARKER);
      StripCountsLength(d);
    }
  }

  lemma StripOfMarker()
    ensures Strip(MARKER) == ""
  {
    assert MARKER[4..] == "" && ToLower(MARKER)[0..4] == LOWER_MARKER;
  }

  /** A name survives the trip through a title exactly when it is trimmed and carries no marker. */
  lemma NameRoundTrip(x: string)
    ensures Display(FolderName(x)) == x <==> Trim(x) == x && !IsFolderTitle(x)
  {
    DisplayOfFolderName(x);
    DisplayShortens(x);
    DisplayShortens(Display(x));
    StripCounts(x);
    StripCounts(Display(x));
    TrimTwice(x);
  }

  /** FolderName is idempotent at x exactly when the displayed name carries no marker: stripping
      can bring the halves of another marker together. */
  lemma IdempotentIff(x: string)
    ensures FolderName(FolderName(x)) == FolderName(x) <==> !IsFolderTitle(Display(x))
    ensures Display(FolderName(x)) == Display(x) <==> !IsFolderTitle(Display(x))
  {
    var d := Display(x);
    TrimTwice(Strip(x));
    DisplayOfFolderName(x);
    DisplayShortens(d);
    StripCounts(d);
    TrimTwice(Strip(d));
    SameTitle(d, Display(d));
  }

  /** Trimmed names are told apart by their titles. */
  lemma SameTitle(a: string, b: string)
    requires Trim(a) == a && Trim(b) == b
    ensures (if a == "" then MARKER else a + " " + MARKER) == (if b == "" then MARKER else b + " " + MARKER) <==> a == b
  {
    var s, t := a + " " + MARKER, b + " " + MARKER;
    assert s[..|s| - 5] == a && t[..|t| - 5] == b;
  }

  /** One step of the reading, character by character. */
  lemma Unfold(s: string)
    requires s != ""
    ensures if |s| >= 4 && s[0] == '[' && LowerChar(s[1]) == 't' && LowerChar(s[2]) == 'c' && s[3] == ']'
            then Strip(s) == Strip(s[4..])
            else Strip(s) == [s[0]] + Strip(s[1..])
  {
    if |s| >= 4 {
      MarkerAtFront(s);
    }
  }

  lemma MarkerAtFront(s: string)
    requires |s| >= 4
    ensures ToLower(s)[0..4] == LOWER_MARKER
            <==> s[0] == '[' && LowerChar(s[1]) == 't' && LowerChar(s[2]) == 'c' && s[3] == ']'
  {
    var l := ToLower(s)[0..4];
    assert l[0] == LowerChar(s[0]) && l[1] == LowerChar(s[1]) && l[2] == LowerChar(s[2]) && l[3] == LowerChar(s[3]);
    assert l == LOWER_MARKER <==> l[0] == '[' && l[1] == 't' && l[2] == 'c' && l[3] == ']';
  }

  lemma StripOfJoined()
    ensures Strip("[T[TC]C]") == "[TC]"
  {
    var s := "[T[TC]C]";
    Unfold(s);
    Unfold(s[1..]);
    Unfold(s[2..]);
    assert s[2..][4..] == s[6..] && s[1..][1..] == s[2..];
    Unfold(s[6..]);
    Unfold(s[7..]);
    assert s[6..][1..] == s[7..] && s[7..][1..] == "";
  }

  lemma StripOfMarked()
    ensures Strip("[TC] [TC]") == " "
  {
    StripMarked("[TC]");
    assert "[TC]" + " " + MARKER == "[TC] [TC]";
    Unfold("[TC]");
    assert "[TC]"[4..] == "";
  }

  lemma NotAlwaysIdempotent()
    ensures FolderName("[T[TC]C]") == "[TC] [TC]" && FolderName("[TC] [TC]") == "[TC]"
  {
    StripOfJoined();
    assert Display("[T[TC]C]") == "[TC]";
    assert FolderName("[T[TC]C]") == "[TC]" + " " + MARKER;
    StripOfMarked();
    assert " "[1..] == "";
    assert Display("[TC] [TC]") == "";
  }

  function Iterate(x: string, n: nat): string {
    if n == 0 then x else FolderName(Iterate(x, n - 1))
  }

  function DisplayTimes(x: string, n: nat): string {
    if n == 0 then x else Display(DisplayTimes(x, n - 1))
  }

  lemma {:induction false} IterateIsDisplay(x: string, n: nat)
    requires n >= 1
    ensures Display(Iterate(x, n - 1)) == DisplayTimes(x, n)
    ensures Iterate(x, n) == FolderName(DisplayTimes(x, n - 1))
  {
    if n > 1 {
      IterateIsDisplay(x, n - 1);
      DisplayOfFolderName(Iterate(x, n - 2));
    }
  }

  lemma {:induction false} MarkersWearOff(x: string, n: nat)
    ensures IsFolderTitle(DisplayTimes(x, n)) ==> 4 * n + 4 <= |x|
    ensures |DisplayTimes(x, n)| <= |x| && (IsFolderTitle(DisplayTimes(x, n)) ==> |DisplayTimes(x, n)| + 4 * n <= |x|)
  {
    var d := DisplayTimes(x, n);
    StripCounts(d);
    if n > 0 {
      var p := DisplayTimes(x, n - 1);
      MarkersWearOff(x, n - 1);
      DisplayShortens(p);
      StripCounts(p);
      if IsFolderTitle(d) && !IsFolderTitle(p) {
        TrimAddsNoMarker(p);
      }
    }
  }

  lemma {:induction false} TrimAddsNoMarker(s: string)
    requires IsFolderTitle(Trim(s))
    ensures IsFolderTitle(s)
  {
    if s != "" && Blank(s[0]) {
      TrimAddsNoMarker(s[1..]);
      assert s[1..|s|] == s[1..];
      MarkerInSlice(s, 1, |s|);
    } else if s != "" && Blank(s[|s| - 1]) {
      TrimAddsNoMarker(s[..|s| - 1]);
      assert s[0..|s| - 1] == s[..|s| - 1];
      MarkerInSlice(s, 0, |s| - 1);
    }
  }

  lemma MarkerInSlice(s: string, lo: nat, hi: nat)
    requires lo <= hi <= |s| && IsFolderTitle(s[lo..hi])
    ensures IsFolderTitle(s)
  {
    var i := Index(ToLower(s[lo..hi]));
    var k := lo + i;
    var here, there := ToLower(s)[k..k + 4], ToLower(s[lo..hi])[i..i + 4];
    forall j | 0 <= j < 4
      ensures here[j] == there[j]
    {
      assert s[lo..hi][i + j] == s[k + j];
    }
    assert here == there;
  }

  /** Making a title of a title of a title ... settles, after at most a quarter of its length. */
  lemma TitlesSettle(x: string, n: nat)
    requires n >= 1 && |x| < 4 * n + 4
    ensures Iterate(x, n + 1) == Iterate(x, n)
  {
    IterateIsDisplay(x, n);
    IterateIsDisplay(x, n + 1);
    MarkersWearOff(x, n);
    IdempotentIff(Iterate(x, n - 1));
  }
}
