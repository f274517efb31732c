/** The few functions of Go's strings and strconv packages the repository leans on, over Unicode code points. */
module GoText {
  import opened Results
  import opened GoInt

  // ---------- strings ----------

  /** unicode.IsSpace. */
  predicate IsSpace(c: char) {
    var n := c as int;
    || 0x09 <= n <= 0x0D || n == 0x20 || n == 0x85 || n == 0xA0 || n == 0x1680 || 0x2000 <= n <= 0x200A
    || n == 0x2028 || n == 0x2029 || n == 0x202F || n == 0x205F || n == 0x3000
  }

  function TrimLeft(s: string): string {
    if s != "" && IsSpace(s[0]) then TrimLeft(s[1..]) else s
  }

  function TrimRight(s: string): string {
    if s != "" && IsSpace(s[|s| - 1]) then TrimRight(s[..|s| - 1]) else s
  }

  function TrimSpace(s: string): string {
    TrimRight(TrimLeft(s))
  }

  /** The 25 white-space characters of Unicode. */
  lemma SpacesAre(c: char)
    ensures IsSpace(c) <==>
              c in "\t\n\U{000B}\U{000C}\r \U{0085}\U{00A0}\U{1680}\U{2028}\U{2029}\U{202F}\U{205F}\U{3000}"
              || c in "\U{2000}\U{2001}\U{2002}\U{2003}\U{2004}\U{2005}\U{2006}\U{2007}\U{2008}\U{2009}\U{200A}"
  {}

  predicate Blank(s: string) {
    forall i :: 0 <= i < |s| ==> IsSpace(s[i])
  }

  lemma {:induction false} TrimLeftMeans(s: string) returns (before: string)
    ensures Blank(before) && s == before + TrimLeft(s)
    ensures TrimLeft(s) != "" ==> !IsSpace(TrimLeft(s)[0])
  {
    if s != "" && IsSpace(s[0]) {
      var rest := TrimLeftMeans(s[1..]);
      before := [s[0]] + rest;
      assert s == [s[0]] + s[1..];
    } else {
      before := "";
    }
  }

  lemma {:induction false} TrimRightMeans(s: string) returns (after: string)
    ensures Blank(after) && s == TrimRight(s) + after
    ensures TrimRight(s) != "" ==> !IsSpace(TrimRight(s)[|TrimRight(s)| - 1])
  {
    if s != "" && IsSpace(s[|s| - 1]) {
      var rest := TrimRightMeans(s[..|s| - 1]);
      after := rest + [s[|s| - 1]];
      assert s == s[..|s| - 1] + [s[|s| - 1]];
    } else {
      after := "";
    }
  }

  /** Trimming takes white space off both ends, all of it and nothing else. */
  lemma TrimSpaceMeans(s: string) returns (before: string, after: string)
    ensures s == before + TrimSpace(s) + after && Blank(before) && Blank(after)
    ensures TrimSpace(s) != "" ==> !IsSpace(TrimSpace(s)[0]) && !IsSpace(TrimSpace(s)[|TrimSpace(s)| - 1])
  {
    before := TrimLeftMeans(s);
    after := TrimRightMeans(TrimLeft(s));
    if TrimSpace(s) != "" {
      assert TrimLeft(s)[0] == TrimSpace(s)[0];
    }
  }

  /** strings.Cut around the first `sep`. */
  function Cut(s: string, sep: char): Option<(string, string)> {
    if s == "" then None
    else if s[0] == sep then Some(("", s[1..]))
    else match Cut(s[1..], sep)
      case None => None
      case Some((before, after)) => Some(([s[0]] + before, after))
  }

  function CutPrefix(s: string, prefix: string): Option<string> {
    if prefix <= s then Some(s[|prefix|..]) else None
  }

  /** What Cut returns is the text around the first separator; there is none exactly when it returns nothing. */
  lemma {:induction false} CutMeans(s: string, sep: char)
    ensures Cut(s, sep).None? <==> sep !in s
    ensures match Cut(s, sep) case None => true case Some((a, b)) => s == a + [sep] + b && sep !in a
  {
    if s != "" && s[0] != sep {
      CutMeans(s[1..], sep);
      assert s == [s[0]] + s[1..];
    }
  }

  lemma CutShortens(s: string, sep: char)
    ensures match Cut(s, sep) case None => true case Some((_, b)) => |b| < |s|
  {
    CutMeans(s, sep);
  }

  /** strings.Split around every `sep`. */
  function Split(s: string, sep: char): (parts: seq<string>)
    ensures parts != []
    decreases |s|
  {
    match Cut(s, sep)
    case None => [s]
    case Some((before, after)) =>
      CutShortens(s, sep);
      [before] + Split(after, sep)
  }

  lemma {:induction false} CutJoined(a: string, sep: char, b: string)
    requires sep !in a
    ensures Cut(a + [sep] + b, sep) == Some((a, b))
  {
    var s := a + [sep] + b;
    if a == "" {
      assert s[1..] == b;
    } else {
      CutJoined(a[1..], sep, b);
      assert s[1..] == a[1..] + [sep] + b;
      assert [a[0]] + a[1..] == a;
    }
  }

  lemma SplitJoined(a: string, sep: char, b: string)
    requires sep !in a
    ensures Split(a + [sep] + b, sep) == [a] + Split(b, sep)
  {
    CutJoined(a, sep, b);
  }

  lemma SplitSingle(a: string, sep: char)
    requires sep !in a
    ensures Split(a, sep) == [a]
  {
    CutMeans(a, sep);
  }

  function CountOf(s: string, c: char): nat {
    if s == "" then 0 else (if s[0] == c then 1 else 0) + CountOf(s[1..], c)
  }

  lemma {:induction false} CountJoined(a: string, b: string, c: char)
    ensures CountOf(a + b, c) == CountOf(a, c) + CountOf(b, c)
  {
    if a == "" {
      assert a + b == b;
    } else {
      CountJoined(a[1..], b, c);
      assert (a + b)[1..] == a[1..] + b;
    }
  }

  lemma {:induction false} CountAbsent(s: string, c: char)
    ensures CountOf(s, c) == 0 <==> c !in s
  {
    if s != "" {
      CountAbsent(s[1..], c);
      assert s == [s[0]] + s[1..];
    }
  }

  /** Splitting gives one part more than there are separators. */
  lemma {:induction false} SplitCount(s: string, sep: char)
    ensures |Split(s, sep)| == CountOf(s, sep) + 1
    decreases |s|
  {
    CutMeans(s, sep);
    CountAbsent(s, sep);
    match Cut(s, sep) {
      case None =>
      case Some((a, b)) =>
        CutShortens(s, sep);
        SplitCount(b, sep);
        CountAbsent(a, sep);
        CountJoined(a, [sep] + b, sep);
        assert s == a + ([sep] + b);
        assert ([sep] + b)[1..] == b;
    }
  }

  lemma TrimSpaceSame(s: string)
    requires s != "" && !IsSpace(s[0]) && !IsSpace(s[|s| - 1])
    ensures TrimSpace(s) == s
  {}

  // ---------- strconv ----------

  predicate IsDigit(c: char) {
    '0' <= c <= '9'
  }

  predicate AllDigits(s: string) {
    forall i :: 0 <= i < |s| ==> IsDigit(s[i])
  }

  function DigitChar(d: nat): char
    requires d < 10
  {
    (d + '0' as int) as char
  }

  function Decimal(n: nat): (s: string)
    ensures s != "" && AllDigits(s)
  {
    if n < 10 then [DigitChar(n)] else Decimal(n / 10) + [DigitChar(n % 10)]
  }

  /** strconv.FormatInt in base 10, also what the verb %d prints. */
  function FormatInt(x: int): string {
    if x < 0 then "-" + Decimal(-x) else Decimal(x)
  }

  function DecimalValue(s: string): nat
    requires AllDigits(s)
  {
    if s == "" then 0 else 10 * DecimalValue(s[..|s| - 1]) + (s[|s| - 1] as int - '0' as int)
  }

  /** strconv.ParseInt(s, 10, 64): an optional sign, then digits only; a value that does not fit is an error. */
  function ParseInt(s: string): Option<int64> {
    var negative := s != "" && s[0] == '-';
    var digits := if s != "" && (s[0] == '+' || s[0] == '-') then s[1..] else s;
    if digits == "" || !AllDigits(digits) then None else
      var magnitude: int := DecimalValue(digits);
      var value := if negative then -magnitude else magnitude;
      if InInt64(value) then Some(value) else None
  }

  lemma {:induction false} DecimalRoundTrip(n: nat)
    ensures DecimalValue(Decimal(n)) == n
  {
    if n >= 10 {
      DecimalRoundTrip(n / 10);
      assert Decimal(n)[..|Decimal(n)| - 1] == Decimal(n / 10);
    }
  }

  /** Parsing undoes printing exactly for the values that fit. */
  lemma ParseUndoesFormat(x: int)
    ensures ParseInt(FormatInt(x)) == (if InInt64(x) then Some(x) else None)
  {
    DecimalRoundTrip(if x < 0 then -x else x);
    if x < 0 {
      assert FormatInt(x)[1..] == Decimal(-x);
    } else {
      assert IsDigit(Decimal(x)[0]);
    }
  }

  /** What is read as a number: digits with or without one sign, as long as the value fits. */
  lemma ParseMeans(digits: string)
    requires digits != "" && AllDigits(digits)
    ensures var n: int := DecimalValue(digits);
            && ParseInt(digits) == (if n <= MAX_INT64 then Some(n) else None)
            && ParseInt("+" + digits) == (if n <= MAX_INT64 then Some(n) else None)
            && ParseInt("-" + digits) == (if -n >= MIN_INT64 then Some(-n) else None)
  {
    assert IsDigit(digits[0]);
    assert ("+" + digits)[1..] == digits && ("-" + digits)[1..] == digits;
  }

  /** And nothing else. */
  lemma ParsedIsNumber(s: string)
    requires ParseInt(s).Some?
    ensures exists digits :: && digits != "" && AllDigits(digits)
                             && (s == digits || s == "+" + digits || s == "-" + digits)
  {
    var digits := if s[0] == '+' || s[0] == '-' then s[1..] else s;
    assert s == digits || s == [s[0]] + digits;
    assert digits != "" && AllDigits(digits);
  }

  /** Printed numbers hold digits and perhaps a sign, nothing a parser could trip over. */
  lemma FormatHolds(x: int, c: char)
    requires !IsDigit(c) && (c != '-' || x >= 0)
    ensures c !in FormatInt(x)
  {
    var d := Decimal(if x < 0 then -x else x);
    assert forall i :: 0 <= i < |d| ==> IsDigit(d[i]);
  }
}
