/** NormalizePersian: two spellings of one query made equal. */
module PersianText {
  import opened GoText

  // ---------- the code ----------

  predicate IsHaraka(n: int) {
    0x064B <= n <= 0x0652
  }

  predicate IsMark(n: int) {
    n == 0x200E || n == 0x200F
  }

  /** The replacer and the map that strips harakat, for one code point: what is written in its place. */
  function FoldChar(c: char): string {
    var n := c as int;
    if n == 0x064A || n == 0x0649 then ['\U{06CC}']
    else if n == 0x0643 then ['\U{06A9}']
    else if n == 0x200C then " "
    else if IsMark(n) || IsHaraka(n) then ""
    else if 0x0660 <= n <= 0x0669 then [DigitChar(n - 0x0660)]
    else if 0x06F0 <= n <= 0x06F9 then [DigitChar(n - 0x06F0)]
    else [c]
  }

  function Fold(s: string): string {
    if s == "" then "" else FoldChar(s[0]) + Fold(s[1..])
  }

  function FirstWord(s: string): string {
    if s == "" || IsSpace(s[0]) then "" else [s[0]] + FirstWord(s[1..])
  }

  lemma {:induction false} FirstWordIsPrefix(s: string)
    ensures |FirstWord(s)| <= |s| && FirstWord(s) == s[..|FirstWord(s)|]
    ensures |FirstWord(s)| < |s| ==> IsSpace(s[|FirstWord(s)|])
    ensures forall i :: 0 <= i < |FirstWord(s)| ==> !IsSpace(s[i])
  {
    if s != "" && !IsSpace(s[0]) {
      FirstWordIsPrefix(s[1..]);
    }
  }

  /** strings.Fields. */
  function Fields(s: string): seq<string>
    decreases |s|
  {
    if s == "" then []
    else if IsSpace(s[0]) then Fields(s[1..])
    else
      FirstWordIsPrefix(s);
      [FirstWord(s)] + Fields(s[|FirstWord(s)|..])
  }

  /** strings.Join with a space. */
  function Join(words: seq<string>): string {
    if |words| == 0 then "" else if |words| == 1 then words[0] else words[0] + " " + Join(words[1..])
  }

  function NormalizePersian(s: string): string {
    Join(Fields(Fold(s)))
  }

  /** What a reader means by the words of a text, spelling variants aside. */
  function FoldedWords(s: string): seq<string> {
    Fields(Fold(s))
  }

  // ---------- what a normal form is ----------

  /** A code point the normalisation would rewrite or drop. */
  predicate Foldable(c: char) {
    FoldChar(c) != [c]
  }

  /** White space is single spaces between words, and nowhere else. */
  predicate TidyAt(s: string, i: nat) {
    i < |s| && IsSpace(s[i]) ==> s[i] == ' ' && 0 < i < |s| - 1 && !IsSpace(s[i - 1]) && !IsSpace(s[i + 1])
  }

  ghost predicate Tidy(s: string) {
    forall i: nat :: TidyAt(s, i)
  }

  predicate Plain(s: string) {
    forall i :: 0 <= i < |s| ==> !Foldable(s[i])
  }

  ghost predicate Canonical(s: string) {
    Tidy(s) && Plain(s)
  }

  predicate IsWord(w: string) {
    w != "" && forall i :: 0 <= i < |w| ==> !IsSpace(w[i])
  }

  predicate Words(ws: seq<string>) {
    forall k :: 0 <= k < |ws| ==> IsWord(ws[k]) && Plain(ws[k])
  }

  // ---------- folding ----------

  /** Nothing folding writes is itself foldable. */
  lemma FoldOnce(c: char)
    ensures Plain(FoldChar(c))
  {}

  lemma {:induction false} FoldIsPlain(s: string)
    ensures Plain(Fold(s))
  {
    if s != "" {
      FoldIsPlain(s[1..]);
      FoldOnce(s[0]);
    }
  }

  lemma {:induction false} FoldKeepsPlain(s: string)
    requires Plain(s)
    ensures Fold(s) == s
  {
    if s != "" {
      FoldKeepsPlain(s[1..]);
      assert !Foldable(s[0]);
      assert s == [s[0]] + s[1..];
    }
  }

  // ---------- splitting and joining ----------

  lemma {:induction false} FieldsAreWords(s: string)
    requires Plain(s)
    ensures Words(Fields(s))
    decreases |s|
  {
    if s != "" {
      if IsSpace(s[0]) {
        FieldsAreWords(s[1..]);
      } else {
        FirstWordIsPrefix(s);
        FieldsAreWords(s[|FirstWord(s)|..]);
      }
    }
  }

  lemma {:induction false} FirstWordOfJoin(w: string, rest: string)
    requires IsWord(w) && (rest == "" || IsSpace(rest[0]))
    ensures FirstWord(w + rest) == w
    decreases |w|
  {
    if |w| > 1 {
      FirstWordOfJoin(w[1..], rest);
    }
    assert (w + rest)[1..] == w[1..] + rest;
    assert w == [w[0]] + w[1..];
    if |w| == 1 {
      assert (w + rest)[1..] == rest && FirstWord(rest) == "";
    }
  }

  lemma FieldsOfWord(w: string, rest: string)
    requires IsWord(w) && (rest == "" || IsSpace(rest[0]))
    ensures Fields(w + rest) == [w] + Fields(rest)
  {
    FirstWordOfJoin(w, rest);
    assert (w + rest)[|w|..] == rest;
  }

  lemma FieldsSkipSpace(s: string)
    ensures Fields(" " + s) == Fields(s)
  {
    assert (" " + s)[1..] == s;
  }

  /** Splitting undoes joining. */
  lemma {:induction false} SplitUndoesJoin(ws: seq<string>)
    requires Words(ws)
    ensures Fields(Join(ws)) == ws
  {
    if |ws| == 1 {
      FieldsOfWord(ws[0], "");
      assert ws[0] + "" == ws[0];
      assert ws == [ws[0]];
    } else if |ws| > 1 {
      FieldsOfWord(ws[0], " " + Join(ws[1..]));
      FieldsSkipSpace(Join(ws[1..]));
      SplitUndoesJoin(ws[1..]);
      assert Join(ws) == ws[0] + (" " + Join(ws[1..]));
      assert ws == [ws[0]] + ws[1..];
    }
  }

  lemma TidyJoin(w: string, rest: string)
    requires IsWord(w) && Tidy(rest) && rest != ""
    ensures Tidy(w + " " + rest)
  {
    var s := w + " " + rest;
    assert TidyAt(rest, 0) && TidyAt(rest, |rest| - 1);
    forall i: nat ensures TidyAt(s, i) {
      if i > |w| {
        assert TidyAt(rest, i - |w| - 1);
        assert i < |s| ==> s[i] == rest[i - |w| - 1];
        assert i + 1 < |s| ==> s[i + 1] == rest[i - |w|];
      } else if i == |w| {
        assert s[i + 1] == rest[0] && s[i - 1] == w[i - 1];
      } else {
        assert s[i] == w[i];
      }
    }
  }

  lemma PlainJoin(a: string, b: string)
    requires Plain(a) && Plain(b)
    ensures Plain(a + " " + b)
  {}

  lemma {:induction false} JoinIsCanonical(ws: seq<string>)
    requires Words(ws)
    ensures Canonical(Join(ws)) && (ws != [] ==> Join(ws) != "")
  {
    if |ws| == 1 {
      forall i: nat ensures TidyAt(ws[0], i) {}
    } else if |ws| > 1 {
      JoinIsCanonical(ws[1..]);
      TidyJoin(ws[0], Join(ws[1..]));
      PlainJoin(ws[0], Join(ws[1..]));
    }
  }

  lemma TidyTail(s: string, n: nat)
    requires Tidy(s) && 0 < n < |s| && !IsSpace(s[n])
    ensures Tidy(s[n..])
  {
    var t := s[n..];
    forall i: nat ensures TidyAt(t, i) {
      assert TidyAt(s, i + n);
      assert i < |t| ==> t[i] == s[i + n];
      assert i + 1 < |t| ==> t[i + 1] == s[i + 1 + n];
      assert 0 < i <= |t| ==> t[i - 1] == s[i - 1 + n];
    }
  }

  /** Joining undoes splitting on a tidy text. */
  lemma {:induction false} JoinUndoesSplit(s: string)
    requires Tidy(s)
    ensures Join(Fields(s)) == s
    decreases |s|
  {
    if s != "" {
      assert TidyAt(s, 0);
      FirstWordIsPrefix(s);
      var w := FirstWord(s);
      if |w| == |s| {
        assert s[|w|..] == "" && w == s;
      } else {
        assert TidyAt(s, |w|);
        var rest := s[|w| + 1..];
        TidyTail(s, |w| + 1);
        JoinUndoesSplit(rest);
        assert s[|w|..][1..] == rest;
        assert Fields(s) == [w] + Fields(rest);
        assert !IsSpace(rest[0]) && Fields(rest) != [];
        assert s == w + " " + rest;
      }
    }
  }

  // ---------- the theorems ----------

  /** The output has no foldable variant, mark or haraka, and no leading, trailing or doubled white space. */
  lemma NormalizedIsCanonical(s: string)
    ensures Canonical(NormalizePersian(s))
  {
    FoldIsPlain(s);
    FieldsAreWords(Fold(s));
    JoinIsCanonical(FoldedWords(s));
  }

  /** Normalisation leaves a text alone exactly when it is in normal form already. */
  lemma FixedExactlyWhenCanonical(s: string)
    ensures NormalizePersian(s) == s <==> Canonical(s)
  {
    if Canonical(s) {
      FoldKeepsPlain(s);
      JoinUndoesSplit(s);
    }
    NormalizedIsCanonical(s);
  }

  lemma Idempotent(s: string)
    ensures NormalizePersian(NormalizePersian(s)) == NormalizePersian(s)
  {
    NormalizedIsCanonical(s);
    FixedExactlyWhenCanonical(NormalizePersian(s));
  }

  /** Two texts collide exactly when they have the same folded words. */
  lemma CollideExactlyOnWords(a: string, b: string)
    ensures NormalizePersian(a) == NormalizePersian(b) <==> FoldedWords(a) == FoldedWords(b)
  {
    FoldIsPlain(a);
    FoldIsPlain(b);
    FieldsAreWords(Fold(a));
    FieldsAreWords(Fold(b));
    SplitUndoesJoin(FoldedWords(a));
    SplitUndoesJoin(FoldedWords(b));
  }

  // ---------- which spellings collide ----------

  predicate IsYeh(c: char) {
    c == '\U{064A}' || c == '\U{0649}' || c == '\U{06CC}'
  }

  predicate IsKaf(c: char) {
    c == '\U{0643}' || c == '\U{06A9}'
  }

  /** The value of an ASCII, Arabic or Persian digit; of anything else, -1. */
  function DigitOf(c: char): int {
    if '0' <= c <= '9' then c as int - 0x30
    else if '\U{0660}' <= c <= '\U{0669}' then c as int - 0x0660
    else if '\U{06F0}' <= c <= '\U{06F9}' then c as int - 0x06F0
    else -1
  }

  /** The same letter for a reader: the three yehs, the two kafs, the digits of three scripts. */
  predicate SameLetter(a: char, b: char) {
    a == b || (IsYeh(a) && IsYeh(b)) || (IsKaf(a) && IsKaf(b)) || DigitOf(a) == DigitOf(b) >= 0
  }

  /** What nobody types: the two direction marks and the vowel signs. */
  predicate Vanishes(c: char) {
    c == '\U{200E}' || c == '\U{200F}' || '\U{064B}' <= c <= '\U{0652}'
  }

  /** What a letter is folded to: one yeh, one kaf, the digits of ASCII, and everything else itself. */
  lemma FoldsTo(c: char)
    requires !Vanishes(c) && c != '\U{200C}'
    ensures FoldChar(c) ==
            (if IsYeh(c) then ['\U{06CC}'] else if IsKaf(c) then ['\U{06A9}']
             else if DigitOf(c) >= 0 then [(0x30 + DigitOf(c)) as char] else [c])
  {}

  /** Folding identifies two letters exactly when they are the same for a reader. */
  lemma FoldsTogether(a: char, b: char)
    requires !Vanishes(a) && !Vanishes(b) && a != '\U{200C}' && b != '\U{200C}'
    ensures FoldChar(a) == FoldChar(b) <==> SameLetter(a, b)
  {
    FoldsTo(a);
    FoldsTo(b);
    assert FoldChar(a) == FoldChar(b) <==> FoldChar(a)[0] == FoldChar(b)[0];
  }

  lemma {:induction false} FoldSame(a: string, b: string)
    requires |a| == |b| && forall i :: 0 <= i < |a| ==> SameLetter(a[i], b[i])
    ensures Fold(a) == Fold(b)
  {
    if a != "" {
      FoldSame(a[1..], b[1..]);
      assert SameLetter(a[0], b[0]);
      if a[0] != b[0] {
        FoldsTogether(a[0], b[0]);
      }
    }
  }

  /** Two spellings of one text, letter by letter the same for a reader, are one text to the search. */
  lemma SpellingsCollide(a: string, b: string)
    requires |a| == |b| && forall i :: 0 <= i < |a| ==> SameLetter(a[i], b[i])
    ensures NormalizePersian(a) == NormalizePersian(b)
  {
    FoldSame(a, b);
  }

  lemma {:induction false} FoldJoined(a: string, b: string)
    ensures Fold(a + b) == Fold(a) + Fold(b)
  {
    if a == "" {
      assert a + b == b;
    } else {
      FoldJoined(a[1..], b);
      assert (a + b)[1..] == a[1..] + b;
    }
  }

  /** A direction mark or a vowel sign anywhere makes no difference. */
  lemma MarksVanish(a: string, c: char, b: string)
    requires Vanishes(c)
    ensures NormalizePersian(a + [c] + b) == NormalizePersian(a + b)
  {
    FoldJoined(a + [c], b);
    FoldJoined(a, [c]);
    FoldJoined(a, b);
    assert FoldChar(c) == "" && [c][1..] == "";
    assert Fold(a) + Fold([c]) == Fold(a);
  }

  /** A zero-width non-joiner separates words like a space. */
  lemma JoinerIsSpace(a: string, b: string)
    ensures NormalizePersian(a + ['\U{200C}'] + b) == NormalizePersian(a + " " + b)
  {
    FoldJoined(a + ['\U{200C}'], b);
    FoldJoined(a, ['\U{200C}']);
    FoldJoined(a + " ", b);
    FoldJoined(a, " ");
    assert Fold(['\U{200C}']) == Fold(" ") by {
      assert ['\U{200C}'][1..] == "" && " "[1..] == "";
    }
  }
}
