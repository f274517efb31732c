/** Listening streaks: the loops of the source against a definition over the set of days. Days are day numbers. */
module Streaks {

  // ---------- what a streak is ----------

  /** The `n` consecutive days that start at `a` are all in the set. */
  predicate Block(days: set<int>, a: int, n: nat) {
    forall d :: a <= d < a + n ==> d in days
  }

  predicate Newest(days: set<int>, d: int) {
    d in days && forall x :: x in days ==> x <= d
  }

  predicate CurrentOf(days: set<int>, today: int, newest: int, current: nat) {
    if newest == today || newest == today - 1 then
      current > 0 && Block(days, newest - current + 1, current) && newest - current !in days
    else current == 0
  }

  /** The longest run is the longest block of consecutive days; the current one is the block that ends at the newest
      day and cannot be extended backwards, when the newest day is today or yesterday, and nothing otherwise. */
  ghost predicate StreakOf(days: set<int>, today: int, current: nat, longest: nat) {
    if days == {} then current == 0 && longest == 0
    else
      && (exists a :: Block(days, a, longest))
      && (forall a, n: nat :: Block(days, a, n) ==> n <= longest)
      && exists newest :: Newest(days, newest) && CurrentOf(days, today, newest, current)
  }

  /** The current streak is one of the blocks the longest is taken over. */
  lemma CurrentWithinLongest(days: set<int>, today: int, current: nat, longest: nat)
    requires StreakOf(days, today, current, longest)
    ensures current <= longest
  {
    if days != {} {
      var newest :| Newest(days, newest) && CurrentOf(days, today, newest, current);
      if current > 0 {
        assert Block(days, newest - current + 1, current);
      }
    }
  }

  /** The set of days decides both streaks. */
  lemma StreakUnique(days: set<int>, today: int, c1: nat, l1: nat, c2: nat, l2: nat)
    requires StreakOf(days, today, c1, l1) && StreakOf(days, today, c2, l2)
    ensures c1 == c2 && l1 == l2
  {
    if days != {} {
      var a1, a2 :| Block(days, a1, l1) && Block(days, a2, l2);
      var n1 :| Newest(days, n1) && CurrentOf(days, today, n1, c1);
      var n2 :| Newest(days, n2) && CurrentOf(days, today, n2, c2);
      assert n1 == n2;
    }
  }

  /** Listening today carries yesterday's streak on by one day. */
  lemma TodayCarriesOn(days: set<int>, today: int, c: nat, l: nat, c': nat, l': nat)
    requires StreakOf(days, today, c, l) && Newest(days, today - 1) && StreakOf(days + {today}, today, c', l')
    ensures c' == c + 1 && l' == (if c + 1 > l then c + 1 else l)
  {
    var more := days + {today};
    var newest :| Newest(days, newest) && CurrentOf(days, today, newest, c);
    assert newest == today - 1;
    var newest' :| Newest(more, newest') && CurrentOf(more, today, newest', c');
    assert newest' == today;
    assert Block(more, today - c, c + 1);
    var a :| Block(days, a, l);
    assert Block(more, a, l);
    assert c' <= c + 1 by {
      assert today - c - 1 !in more;
    }
    var a' :| Block(more, a', l');
    if a' + l' <= today {
      assert Block(days, a', l');
    } else {
      assert today - c - 1 !in more && today + 1 !in more && (l' > 0 ==> a' in more);
      assert l' <= c + 1;
    }
  }

  function DaySet(xs: seq<int>): set<int> {
    set d | d in xs
  }

  /** Order and repetition of the recorded days do not matter. */
  lemma OrderAndRepetitionIrrelevant(xs: seq<int>, ys: seq<int>, today: int, c1: nat, l1: nat, c2: nat, l2: nat)
    requires forall d :: d in xs <==> d in ys
    requires StreakOf(DaySet(xs), today, c1, l1) && StreakOf(DaySet(ys), today, c2, l2)
    ensures c1 == c2 && l1 == l2
  {
    forall d ensures d in DaySet(xs) <==> d in DaySet(ys) {
      assert d in xs <==> d in ys;
    }
    assert DaySet(xs) == DaySet(ys);
    StreakUnique(DaySet(xs), today, c1, l1, c2, l2);
  }

  // ---------- sorting ----------

  function Insert(x: int, s: seq<int>): seq<int> {
    if s == [] || x > s[0] then [x] + s else [s[0]] + Insert(x, s[1..])
  }

  /** sort.Slice, newest day first. */
  function Sorted(s: seq<int>): seq<int> {
    if s == [] then [] else Insert(s[0], Sorted(s[1..]))
  }

  predicate Descending(s: seq<int>) {
    forall i, j :: 0 <= i < j < |s| ==> s[i] > s[j]
  }

  lemma {:induction false} InsertKeeps(x: int, s: seq<int>)
    ensures forall d :: d in Insert(x, s) <==> d == x || d in s
  {
    if s != [] && x <= s[0] {
      InsertKeeps(x, s[1..]);
      assert s == [s[0]] + s[1..];
    }
  }

  lemma ConsDescending(d: int, s: seq<int>)
    requires Descending(s) && forall x :: x in s ==> x < d
    ensures Descending([d] + s)
  {
    var t := [d] + s;
    forall i, j | 0 <= i < j < |t| ensures t[i] > t[j] {
      assert t[j] == s[j - 1];
      assert s[j - 1] in s;
    }
  }

  lemma {:induction false} InsertOk(x: int, s: seq<int>)
    requires Descending(s) && x !in s
    ensures Descending(Insert(x, s))
  {
    if s == [] || x > s[0] {
      ConsDescending(x, s);
    } else {
      InsertOk(x, s[1..]);
      InsertKeeps(x, s[1..]);
      ConsDescending(s[0], Insert(x, s[1..]));
    }
  }

  predicate NoRepeats(s: seq<int>) {
    forall i, j :: 0 <= i < j < |s| ==> s[i] != s[j]
  }

  lemma {:induction false} SortedOk(s: seq<int>)
    requires NoRepeats(s)
    ensures Descending(Sorted(s)) && forall d :: d in Sorted(s) <==> d in s
  {
    if s != [] {
      SortedOk(s[1..]);
      assert s[0] !in s[1..];
      InsertOk(s[0], Sorted(s[1..]));
      InsertKeeps(s[0], Sorted(s[1..]));
      assert s == [s[0]] + s[1..];
    }
  }

  // ---------- the loops ----------

  /** The dedupe loop. */
  method Dedupe(days: seq<int>) returns (normalized: seq<int>)
    ensures NoRepeats(normalized) && forall d :: d in normalized <==> d in days
  {
    normalized := [];
    var seen: set<int> := {};
    for i := 0 to |days|
      invariant NoRepeats(normalized)
      invariant forall d :: d in seen <==> d in normalized
      invariant forall d :: d in normalized <==> d in days[..i]
    {
      if days[i] !in seen {
        seen := seen + {days[i]};
        normalized := normalized + [days[i]];
      }
    }
    assert days[..|days|] == days;
  }

  /** Nothing lies between two neighbours of a descending list of all the days. */
  ghost predicate Lists(s: seq<int>, days: set<int>) {
    Descending(s) && forall d :: d in s <==> d in days
  }

  lemma Between(s: seq<int>, days: set<int>, i: nat, d: int)
    requires Lists(s, days) && i < |s| && d in days && d > s[i]
    ensures i > 0 && d >= s[i - 1]
  {
    var j :| 0 <= j < |s| && s[j] == d;
  }

  lemma Oldest(s: seq<int>, days: set<int>)
    requires s != [] && Lists(s, days)
    ensures forall d :: d in days ==> d >= s[|s| - 1]
  {
    forall d | d in days ensures d >= s[|s| - 1] {
      var j :| 0 <= j < |s| && s[j] == d;
    }
  }

  /** The run-counting loop. */
  method Longest(s: seq<int>, ghost days: set<int>) returns (longest: nat)
    requires s != [] && Lists(s, days)
    ensures exists a :: Block(days, a, longest)
    ensures forall a, n: nat :: Block(days, a, n) ==> n <= longest
  {
    var run := 1;
    longest := 1;
    ghost var at := s[0];
    for i := 1 to |s|
      invariant run >= 1 && longest >= run
      invariant Block(days, s[i - 1], run) && s[i - 1] + run !in days
      invariant Block(days, at, longest)
      invariant forall j, n: nat :: 0 <= j < i && Block(days, s[j], n) ==> n <= longest
    {
      ghost var before := longest;
      if s[i - 1] - 1 == s[i] {
        run := run + 1;
        if run > longest {
          longest := run;
          at := s[i];
        }
      } else {
        run := 1;
        if s[i] + 1 in days {
          Between(s, days, i, s[i] + 1);
        }
      }
      forall n: nat | Block(days, s[i], n) ensures n <= run {
        assert !(s[i] <= s[i] + run < s[i] + n);
      }
    }
    forall a, n: nat | Block(days, a, n) ensures n <= longest {
      if n > 0 {
        assert a in days;
        var j :| 0 <= j < |s| && s[j] == a;
      }
    }
  }

  /** The loop that counts back from the newest day. */
  method CountBack(s: seq<int>, ghost days: set<int>) returns (current: nat)
    requires s != [] && Lists(s, days)
    ensures current > 0 && Block(days, s[0] - current + 1, current) && s[0] - current !in days
  {
    current := 1;
    for i := 1 to |s|
      invariant current == i && s[i - 1] == s[0] - i + 1
      invariant Block(days, s[i - 1], i)
    {
      if s[i - 1] - 1 != s[i] {
        assert s[i - 1] - 1 !in days by {
          if s[i - 1] - 1 in days {
            Between(s, days, i, s[i - 1] - 1);
          }
        }
        return;
      }
      current := current + 1;
    }
    Oldest(s, days);
  }

  /** Streaks. */
  method Compute(days: seq<int>, today: int) returns (current: nat, longest: nat)
    ensures StreakOf(DaySet(days), today, current, longest)
    ensures current <= longest
    ensures longest > 0 <==> days != []
    ensures current > 0 <==> (today in days || today - 1 in days) && forall d :: d in days ==> d <= today
  {
    ghost var all := DaySet(days);
    if |days| == 0 {
      return 0, 0;
    }
    var unique := Dedupe(days);
    SortedOk(unique);
    var normalized := Sorted(unique);
    ghost var some := days[0];
    assert some in days && some in normalized;
    assert Lists(normalized, all) && Newest(all, normalized[0]);
    longest := Longest(normalized, all);
    assert Block(all, normalized[0], 1);
    var newest := normalized[0];
    if newest != today && newest != today - 1 {
      assert CurrentOf(all, today, newest, 0);
      return 0, longest;
    }
    current := CountBack(normalized, all);
    assert CurrentOf(all, today, newest, current);
    CurrentWithinLongest(all, today, current, longest);
  }
}
