/** clampRange: a Range header narrowed so that it never reaches past a limit. */
module ByteRange {
  import opened Results
  import opened GoInt
  import opened GoText

  /** An int-range of RFC 9110, section 14.1.2: from a first byte to a last one, or to the end of the file. */
  datatype Interval = Interval(first: nat, last: Option<nat>)

  predicate Covers(r: Interval, b: nat) {
    r.first <= b && (r.last.None? || b <= r.last.value)
  }

  const PREFIX := "bytes="

  function Bytes(first: int, last: int): string {
    PREFIX + FormatInt(first) + "-" + FormatInt(last)
  }

  /** clampRange; None is ErrRangeOutsidePreview. */
  function ClampRange(header: string, limit: int64): Option<string> {
    if limit <= 0 then None
    else if header == "" then Some(Bytes(0, limit - 1))
    else match CutPrefix(TrimSpace(header), PREFIX)
      case None => None
      case Some(spec) =>
        if ',' in spec then None
        else match Cut(spec, '-')
          case None => None
          case Some((startRaw, endRaw)) =>
            if startRaw == "" then None
            else match ParseInt(startRaw)
              case None => None
              case Some(start) =>
                if start < 0 || start >= limit then None
                else if endRaw == "" then Some(Bytes(start, limit - 1))
                else match ParseInt(endRaw)
                  case None => None
                  case Some(end) =>
                    if end < start then None
                    else Some(Bytes(start, if end < limit - 1 then end else limit - 1))
  }

  function RequestedSpec(spec: string): Option<Interval> {
    if ',' in spec then None
    else match Cut(spec, '-')
      case None => None
      case Some((a, b)) =>
        if ParseInt(a).None? || ParseInt(a).value < 0 then None
        else if b == "" then Some(Interval(ParseInt(a).value, None))
        else if ParseInt(b).None? || ParseInt(b).value < ParseInt(a).value then None
        else Some(Interval(ParseInt(a).value, Some(ParseInt(b).value)))
  }

  /** The bytes a header asks for: everything without a header, one interval for a well-formed single range, and
      None for what is not one (a suffix, several ranges, another unit, a malformed or oversized number). */
  function Requested(header: string): Option<Interval> {
    if header == "" then Some(Interval(0, None)) else
      match CutPrefix(TrimSpace(header), PREFIX)
      case None => None
      case Some(spec) => RequestedSpec(spec)
  }

  /** A header that asks for one interval: the unit, a first position, a hyphen, and a last position that is missing or
      not before the first. Positions are what ParseInt accepts, so a plus sign and leading zeros are let through. */
  predicate SingleRange(header: string, a: string, b: string) {
    && TrimSpace(header) == PREFIX + a + ['-'] + b
    && '-' !in a && ',' !in a && ',' !in b
    && ParseInt(a).Some? && ParseInt(a).value >= 0
    && (b == "" || (ParseInt(b).Some? && ParseInt(b).value >= ParseInt(a).value))
  }

  lemma PrefixCut(spec: string)
    ensures CutPrefix(PREFIX + spec, PREFIX) == Some(spec)
  {
    assert (PREFIX + spec)[..|PREFIX|] == PREFIX && (PREFIX + spec)[|PREFIX|..] == spec;
  }

  lemma NoCommas(a: string, b: string)
    ensures ',' in a + ['-'] + b <==> ',' in a || ',' in b
  {
    var spec := a + ['-'] + b;
    assert forall i :: 0 <= i < |a| ==> spec[i] == a[i];
    assert forall i :: 0 <= i < |b| ==> spec[|a| + 1 + i] == b[i];
  }

  lemma FormIsRead(header: string, a: string, b: string)
    requires header != "" && SingleRange(header, a, b)
    ensures Requested(header) == Some(Interval(ParseInt(a).value, if b == "" then None else Some(ParseInt(b).value)))
  {
    var spec := a + ['-'] + b;
    assert TrimSpace(header) == PREFIX + spec;
    PrefixCut(spec);
    NoCommas(a, b);
    CutJoined(a, '-', b);
  }

  lemma ReadHasForm(header: string)
    requires header != "" && Requested(header).Some?
    ensures exists a, b :: SingleRange(header, a, b)
  {
    var trimmed := TrimSpace(header);
    var spec := trimmed[|PREFIX|..];
    assert trimmed == PREFIX + spec;
    CutMeans(spec, '-');
    var (a, b) := Cut(spec, '-').value;
    assert trimmed == PREFIX + a + ['-'] + b;
    NoCommas(a, b);
    assert SingleRange(header, a, b);
  }

  /** The reading of a header, as a grammar: it is accepted exactly when it has that form, and then the positions are
      the interval. */
  lemma RequestedGrammar(header: string)
    requires header != ""
    ensures Requested(header).Some? <==> exists a, b :: SingleRange(header, a, b)
    ensures forall a, b :: SingleRange(header, a, b) ==>
              Requested(header) == Some(Interval(ParseInt(a).value, if b == "" then None else Some(ParseInt(b).value)))
  {
    forall a, b | SingleRange(header, a, b)
      ensures Requested(header) == Some(Interval(ParseInt(a).value, if b == "" then None else Some(ParseInt(b).value)))
    {
      FormIsRead(header, a, b);
    }
    if Requested(header).Some? {
      ReadHasForm(header);
    }
  }

  /** The part of a printed range after the unit. */
  lemma SpecReadsBack(first: int, last: int)
    requires 0 <= first <= last <= MAX_INT64
    ensures RequestedSpec(FormatInt(first) + ['-'] + FormatInt(last)) == Some(Interval(first, Some(last)))
  {
    var a, b := FormatInt(first), FormatInt(last);
    FormatHolds(first, '-');
    FormatHolds(first, ',');
    FormatHolds(last, ',');
    ParseUndoesFormat(first);
    ParseUndoesFormat(last);
    CutJoined(a, '-', b);
    assert ',' !in a + ['-'] + b;
  }

  /** Nothing is trimmed off a printed range, and its unit is recognised. */
  lemma PrintedIsTrimmed(first: int, last: int)
    requires 0 <= first <= last
    ensures CutPrefix(TrimSpace(Bytes(first, last)), PREFIX) == Some(FormatInt(first) + ['-'] + FormatInt(last))
  {
    var b := FormatInt(last);
    var spec := FormatInt(first) + ['-'] + b;
    var header := Bytes(first, last);
    assert header == PREFIX + spec;
    assert header[0] == 'b' && header[|header| - 1] == b[|b| - 1] && IsDigit(b[|b| - 1]);
    TrimSpaceSame(header);
    assert header[..|PREFIX|] == PREFIX && header[|PREFIX|..] == spec;
  }

  /** A printed range reads back as the interval it was printed from. */
  lemma PrintedReadsBack(first: int, last: int)
    requires 0 <= first <= last <= MAX_INT64
    ensures Requested(Bytes(first, last)) == Some(Interval(first, Some(last)))
  {
    SpecReadsBack(first, last);
    PrintedIsTrimmed(first, last);
  }

  function Min(a: int, b: int): int {
    if a < b then a else b
  }

  /** What is refused, and what is asked of storage: the header must ask for one interval that starts inside the
      window, and then exactly the part of it inside the window is asked for, never an empty part. */
  lemma ClampMeans(header: string, limit: int64)
    ensures ClampRange(header, limit).Some? <==>
              limit > 0 && Requested(header).Some? && Requested(header).value.first < limit
    ensures ClampRange(header, limit).Some? ==>
              var asked := Requested(header).value;
              var last := if asked.last.None? then limit - 1 else Min(asked.last.value, limit - 1);
              && ClampRange(header, limit).value == Bytes(asked.first, last)
              && asked.first <= last < limit
              && Requested(ClampRange(header, limit).value) == Some(Interval(asked.first, Some(last)))
  {
    if ClampRange(header, limit).Some? {
      var asked := Requested(header).value;
      PrintedReadsBack(asked.first, if asked.last.None? then limit - 1 else Min(asked.last.value, limit - 1));
    }
  }

  /** Byte by byte: the clamped range covers what the header asked for and the window allows. */
  lemma ClampIntersects(header: string, limit: int64, b: nat)
    requires ClampRange(header, limit).Some?
    ensures Requested(header).Some? && Requested(ClampRange(header, limit).value).Some?
    ensures Covers(Requested(ClampRange(header, limit).value).value, b) <==>
              Covers(Requested(header).value, b) && b < limit
  {
    ClampMeans(header, limit);
  }

  /** Clamping twice is clamping once to the smaller limit, refusals included. */
  lemma ClampTwice(header: string, l1: int64, l2: int64)
    ensures var once := ClampRange(header, l1);
            (if once.None? then None else ClampRange(once.value, l2)) == ClampRange(header, if l1 < l2 then l1 else l2)
  {
    var low: int64 := if l1 < l2 then l1 else l2;
    ClampMeans(header, l1);
    ClampMeans(header, l2);
    ClampMeans(header, low);
    if ClampRange(header, l1).Some? {
      var once := ClampRange(header, l1).value;
      ClampMeans(once, l2);
    }
  }

  /** Clamping a clamped header changes nothing. */
  lemma ClampIdempotent(header: string, limit: int64)
    requires ClampRange(header, limit).Some?
    ensures ClampRange(ClampRange(header, limit).value, limit) == ClampRange(header, limit)
  {
    ClampTwice(header, limit, limit);
  }
}
