/** Narration: chapters laid end to end over the joined audio, stored in milliseconds, and synced once. */
module Chapters {
  import opened Results
  import opened GoText

  type Id = nat

  datatype Part = Part(key: string, format: string, duration: real, status: string, title: string)
  datatype Chapter = Chapter(title: string, order: nat, start: real, end: real)
  /** Boundaries in milliseconds, as the catalogue stores them. */
  datatype StoredChapter = StoredChapter(title: string, order: nat, start: int, end: int)

  // ---------- the parts that are ready ----------

  /** strings.ToLower as far as the ASCII letters it can produce. */
  function LowerChar(c: char): char {
    if 'A' <= c <= 'Z' then (c as int + 32) as char
    else if c == '\U{0130}' then 'i'
    else if c == '\U{212A}' then 'k'
    else c
  }

  function ToLower(s: string): string {
    if s == "" then "" else [LowerChar(s[0])] + ToLower(s[1..])
  }

  predicate Unfinished(status: string) {
    var s := ToLower(status);
    s == "pending" || s == "processing" || s == "failed" || s == "error"
  }

  predicate IsReady(p: Part) {
    !Unfinished(p.status) && TrimSpace(p.key) != ""
  }

  function Ready(parts: seq<Part>): seq<Part> {
    if parts == [] then [] else
      var rest := Ready(parts[..|parts| - 1]);
      if IsReady(parts[|parts| - 1]) then rest + [parts[|parts| - 1]] else rest
  }

  method ReadyParts(parts: seq<Part>) returns (out: seq<Part>)
    ensures out == Ready(parts)
  {
    out := [];
    for i := 0 to |parts|
      invariant out == Ready(parts[..i])
    {
      assert parts[..i + 1][..i] == parts[..i];
      if !Unfinished(parts[i].status) {
        if TrimSpace(parts[i].key) != "" {
          out := out + [parts[i]];
        }
      }
    }
    assert parts[..|parts|] == parts;
  }

  /** Exactly the finished parts with a file are kept. */
  lemma {:induction false} ReadyMeans(parts: seq<Part>, p: Part)
    ensures p in Ready(parts) <==> p in parts && IsReady(p)
  {
    if parts != [] {
      ReadyMeans(parts[..|parts| - 1], p);
      assert parts == parts[..|parts| - 1] + [parts[|parts| - 1]];
    }
  }

  lemma ReadyLast(parts: seq<Part>, p: Part)
    ensures Ready(parts + [p]) == Ready(parts) + (if IsReady(p) then [p] else [])
  {
    assert (parts + [p])[..|parts|] == parts;
  }

  lemma Regroup<T>(a: seq<T>, b: seq<T>, c: seq<T>)
    ensures a + b + c == a + (b + c)
  {}

  lemma ReadyNext(before: seq<Part>, after: seq<Part>, p: Part)
    requires Ready(before + after) == Ready(before) + Ready(after)
    ensures Ready(before + (after + [p])) == Ready(before) + Ready(after + [p])
  {
    Regroup(before, after, [p]);
    ReadyLast(before + after, p);
    ReadyLast(after, p);
    Regroup(Ready(before), Ready(after), if IsReady(p) then [p] else []);
  }

  /** In the order they came in. */
  lemma {:induction false} ReadyInOrder(before: seq<Part>, after: seq<Part>)
    ensures Ready(before + after) == Ready(before) + Ready(after)
    decreases |after|
  {
    if after == [] {
      assert before + after == before;
    } else {
      ReadyInOrder(before, after[..|after| - 1]);
      ReadyNext(before, after[..|after| - 1], after[|after| - 1]);
      assert after == after[..|after| - 1] + [after[|after| - 1]];
    }
  }

  /** One character for another that lower-casing makes the same: the letter itself, its capital, and the two capitals
      from elsewhere in Unicode. */
  predicate Spells(s: string, word: string) {
    && |s| == |word|
    && forall i :: 0 <= i < |s| ==>
                     || s[i] == word[i] || s[i] as int + 32 == word[i] as int
                     || (word[i] == 'i' && s[i] == '\U{0130}') || (word[i] == 'k' && s[i] == '\U{212A}')
  }

  predicate LowerWord(word: string) {
    forall i :: 0 <= i < |word| ==> 'a' <= word[i] <= 'z'
  }

  lemma SpellsNext(c: char, s: string, d: char, word: string)
    ensures Spells([c] + s, [d] + word) <==> Spells([c], [d]) && Spells(s, word)
  {
    var x, y := [c] + s, [d] + word;
    if Spells(x, y) {
      assert x[0] == c && y[0] == d;
      forall i | 0 <= i < |s| ensures s[i] == x[i + 1] && word[i] == y[i + 1] {}
    }
  }

  lemma LowerSpellsChar(c: char, d: char)
    requires 'a' <= d <= 'z'
    ensures LowerChar(c) == d <==> Spells([c], [d])
  {
    assert [c][0] == c && [d][0] == d;
  }

  lemma {:induction false} LowerSpells(s: string, word: string)
    requires LowerWord(word)
    ensures ToLower(s) == word <==> Spells(s, word)
    decreases |s|
  {
    if s != "" && word != "" {
      LowerSpells(s[1..], word[1..]);
      LowerSpellsChar(s[0], word[0]);
      SpellsNext(s[0], s[1..], word[0], word[1..]);
      assert s == [s[0]] + s[1..] && word == [word[0]] + word[1..];
    }
  }

  /** A part is left out exactly when its status is some spelling of one of four words, or it has no file. */
  lemma LeftOutMeans(parts: seq<Part>, p: Part)
    requires p in parts
    ensures p !in Ready(parts) <==>
              || Spells(p.status, "pending") || Spells(p.status, "processing")
              || Spells(p.status, "failed") || Spells(p.status, "error")
              || TrimSpace(p.key) == ""
  {
    ReadyMeans(parts, p);
    LowerSpells(p.status, "pending");
    LowerSpells(p.status, "processing");
    LowerSpells(p.status, "failed");
    LowerSpells(p.status, "error");
  }

  // ---------- chapters ----------

  /** Addition of seconds as the machine does it; all that is used of it is that adding a duration that is not
      negative never moves backwards. */
  type Plus = (real, real) -> real

  ghost predicate Grows(add: Plus) {
    forall x, d :: d >= 0.0 ==> add(x, d) >= x
  }

  /** The end of the first `n` parts, added up in order: where the loop's cursor stands. */
  function Cursor(add: Plus, parts: seq<Part>, n: nat): real
    requires n <= |parts|
  {
    if n == 0 then 0.0 else add(Cursor(add, parts, n - 1), parts[n - 1].duration)
  }

  function TitleOf(p: Part, i: nat): string {
    if p.title == "" then "بخش " + FormatInt(i + 1) else p.title
  }

  /** A single untitled file has no chapters. */
  predicate Chapterless(parts: seq<Part>) {
    |parts| == 0 || (|parts| == 1 && parts[0].title == "")
  }

  predicate LaidOut(add: Plus, parts: seq<Part>, out: seq<Chapter>, n: nat) {
    n <= |parts| && |out| == n
    && forall i :: 0 <= i < n ==>
                     out[i] == Chapter(TitleOf(parts[i], i), i, Cursor(add, parts, i), Cursor(add, parts, i + 1))
  }

  /** chaptersFrom. */
  method ChaptersFrom(add: Plus, parts: seq<Part>) returns (out: seq<Chapter>)
    ensures if Chapterless(parts) then out == [] else LaidOut(add, parts, out, |parts|)
    ensures out == [] <==> |parts| == 0 || (|parts| == 1 && parts[0].title == "")
    ensures forall i :: 0 <= i < |out| ==>
              && i < |parts| && out[i].order == i
              && out[i].title == (if parts[i].title == "" then "بخش " + FormatInt(i + 1) else parts[i].title)
  {
    if |parts| < 2 && (|parts| == 0 || parts[0].title == "") {
      return [];
    }
    out := [];
    var cursor := 0.0;
    for i := 0 to |parts|
      invariant LaidOut(add, parts, out, i)
      invariant cursor == Cursor(add, parts, i)
    {
      var p := parts[i];
      var title := p.title;
      if title == "" {
        title := "بخش " + FormatInt(i + 1);
      }
      out := out + [Chapter(title, i, cursor, add(cursor, p.duration))];
      cursor := add(cursor, p.duration);
    }
    forall i | 0 <= i < |out| ensures out[i].order == i && out[i].title == TitleOf(parts[i], i) {
      assert out[i] == Chapter(TitleOf(parts[i], i), i, Cursor(add, parts, i), Cursor(add, parts, i + 1));
    }
  }

  /** The total that concatenate reports. */
  method TotalDuration(add: Plus, parts: seq<Part>) returns (total: real)
    ensures total == Cursor(add, parts, |parts|)
  {
    total := 0.0;
    for i := 0 to |parts|
      invariant total == Cursor(add, parts, i)
    {
      total := add(total, parts[i].duration);
    }
  }

  predicate NonNegative(parts: seq<Part>) {
    forall i :: 0 <= i < |parts| ==> parts[i].duration >= 0.0
  }

  /** Chapters are contiguous, begin at zero and end where the joined audio ends, and none runs backwards. */
  ghost predicate Tiles(out: seq<Chapter>, total: real) {
    && out != [] && out[0].start == 0.0 && out[|out| - 1].end == total
    && (forall i :: 0 <= i < |out| ==> out[i].start <= out[i].end && out[i].order == i)
    && (forall i :: 0 <= i < |out| - 1 ==> out[i].end == out[i + 1].start)
  }

  lemma CursorForward(add: Plus, parts: seq<Part>, i: nat)
    requires Grows(add) && i < |parts| && parts[i].duration >= 0.0
    ensures Cursor(add, parts, i) <= Cursor(add, parts, i + 1)
  {
    assert add(Cursor(add, parts, i), parts[i].duration) >= Cursor(add, parts, i);
  }

  predicate ChapterAt(add: Plus, parts: seq<Part>, c: Chapter, i: nat) {
    i < |parts| && c.order == i && c.start == Cursor(add, parts, i) && c.end == Cursor(add, parts, i + 1)
  }

  // This lemma, ChaptersTile and SyncedEditionTiles are not inductive: the attribute keeps the automatic induction
  // hypothesis away, from which the verifier derives false.
  lemma {:induction false} ChaptersContiguous(add: Plus, parts: seq<Part>, out: seq<Chapter>)
    requires Grows(add) && NonNegative(parts) && parts != [] && |out| == |parts|
    requires forall i :: 0 <= i < |out| ==> ChapterAt(add, parts, out[i], i)
    ensures Tiles(out, Cursor(add, parts, |parts|))
  {
    forall i | 0 <= i < |out| ensures out[i].start <= out[i].end && out[i].order == i {
      assert ChapterAt(add, parts, out[i], i);
      CursorForward(add, parts, i);
    }
    forall i | 0 <= i < |out| - 1 ensures out[i].end == out[i + 1].start {
      assert ChapterAt(add, parts, out[i], i) && ChapterAt(add, parts, out[i + 1], i + 1);
    }
    assert ChapterAt(add, parts, out[0], 0) && ChapterAt(add, parts, out[|out| - 1], |out| - 1);
  }

  lemma {:induction false} ChaptersTile(add: Plus, parts: seq<Part>, out: seq<Chapter>)
    requires Grows(add) && NonNegative(parts) && parts != [] && LaidOut(add, parts, out, |parts|)
    ensures Tiles(out, Cursor(add, parts, |parts|))
  {
    forall i | 0 <= i < |out| ensures ChapterAt(add, parts, out[i], i) {
      assert out[i] == Chapter(TitleOf(parts[i], i), i, Cursor(add, parts, i), Cursor(add, parts, i + 1));
    }
    ChaptersContiguous(add, parts, out);
  }

  // ---------- milliseconds ----------

  /** The nearest integer, halves to the even one. */
  function RoundHalfEven(x: real): int {
    var below := x.Floor;
    var rest := x - below as real;
    if rest < 0.5 || (rest == 0.5 && below % 2 == 0) then below else below + 1
  }

  /** The thousandths that three printed decimals keep. */
  function Millis(seconds: real): int {
    RoundHalfEven(seconds * 1000.0)
  }

  /** A nearest integer, and of two equally near ones the even one. */
  lemma RoundingIsClose(x: real)
    ensures -0.5 <= RoundHalfEven(x) as real - x <= 0.5
    ensures RoundHalfEven(x) as real - x == 0.5 || RoundHalfEven(x) as real - x == -0.5 ==> RoundHalfEven(x) % 2 == 0
  {}

  /** Rounding keeps order, so chapters that do not overlap still do not. */
  lemma RoundingIsMonotone(x: real, y: real)
    requires x <= y
    ensures RoundHalfEven(x) <= RoundHalfEven(y)
  {
    RoundingIsClose(x);
    RoundingIsClose(y);
    if x.Floor < y.Floor {
      assert RoundHalfEven(x) <= x.Floor + 1 <= y.Floor <= RoundHalfEven(y);
    }
  }

  function Stored(out: seq<Chapter>): seq<StoredChapter> {
    seq(|out|, i requires 0 <= i < |out| => StoredChapter(out[i].title, i, Millis(out[i].start), Millis(out[i].end)))
  }

  /** A stored chapter keeps its title and its place, and its boundaries to half a millisecond. */
  lemma StoredIsClose(out: seq<Chapter>, i: nat)
    requires i < |out|
    ensures |Stored(out)| == |out| && Stored(out)[i].title == out[i].title && Stored(out)[i].order == i
    ensures -0.5 <= Stored(out)[i].start as real - out[i].start * 1000.0 <= 0.5
    ensures -0.5 <= Stored(out)[i].end as real - out[i].end * 1000.0 <= 0.5
  {
    RoundingIsClose(out[i].start * 1000.0);
    RoundingIsClose(out[i].end * 1000.0);
  }

  ghost predicate TilesStored(out: seq<StoredChapter>, total: int) {
    && out != [] && out[0].start == 0 && out[|out| - 1].end == total
    && (forall i :: 0 <= i < |out| ==> out[i].start <= out[i].end && out[i].order == i)
    && (forall i :: 0 <= i < |out| - 1 ==> out[i].end == out[i + 1].start)
  }

  /** Seams still coincide after rounding to milliseconds. */
  lemma SeamsSurviveRounding(out: seq<Chapter>, total: real)
    requires Tiles(out, total)
    ensures TilesStored(Stored(out), Millis(total))
  {
    assert Millis(0.0) == 0;
    forall i | 0 <= i < |out| ensures Millis(out[i].start) <= Millis(out[i].end) {
      RoundingIsMonotone(out[i].start * 1000.0, out[i].end * 1000.0);
    }
  }

  // ---------- syncing ----------

  datatype AudioStatus = AudioPending | AudioSynced | AudioFailed
  /** A book as the catalogue knows it and as the narration service knows it. */
  datatype Submission = Submission(book: Id, aiBook: string, status: AudioStatus, signature: string)
  /** The edition of a book: its asset and its chapters. */
  datatype Edition = Edition(key: string, format: string, seconds: int, chapters: seq<StoredChapter>)
  datatype SyncError = NotFound | NoAudioYet | JoinFailed | SaveFailed

  /** What a signature is taken over: each file and its duration to the millisecond. */
  function SignedParts(parts: seq<Part>): seq<(string, int)> {
    seq(|parts|, i requires 0 <= i < |parts| => (parts[i].key, Millis(parts[i].duration)))
  }

  function FirstFormat(parts: seq<Part>): string {
    if parts == [] then "mp3"
    else if TrimSpace(parts[0].format) != "" then ToLower(TrimSpace(parts[0].format))
    else FirstFormat(parts[1..])
  }

  /** Where several parts are joined to. */
  function JoinedKey(aiBook: string, parts: seq<Part>): string {
    "books/" + aiBook + "/audio/edition." + FirstFormat(parts)
  }

  /** Whole seconds: Go's truncation of the duration plus a half. */
  function WholeSeconds(duration: real): int {
    var x := duration + 0.5;
    if x >= 0.0 then x.Floor else -((-x).Floor)
  }

  /** The first format that is not blank, in lower case; mp3 when there is none. */
  lemma {:induction false} FirstFormatMeans(parts: seq<Part>, k: nat)
    requires k <= |parts| && forall i :: 0 <= i < k ==> TrimSpace(parts[i].format) == ""
    requires k < |parts| ==> TrimSpace(parts[k].format) != ""
    ensures FirstFormat(parts) == (if k == |parts| then "mp3" else ToLower(TrimSpace(parts[k].format)))
    decreases k
  {
    if k > 0 {
      FirstFormatMeans(parts[1..], k - 1);
    }
  }

  /** The nearest number of seconds, halves rounded up. */
  lemma WholeSecondsNearest(duration: real)
    requires duration >= 0.0
    ensures duration - 0.5 < WholeSeconds(duration) as real <= duration + 0.5
  {}

  /** A single file must have a duration, several must be joined. */
  predicate Makes(parts: seq<Part>, joinSucceeds: bool) {
    if |parts| == 1 then parts[0].duration > 0.0 else joinSucceeds
  }

  /** The stored chapters are those of the parts, rounded; one part is played where it lies, several from the file
      they are joined to, and they report the length they add up to. */
  ghost predicate Covers(add: Plus, e: Edition, aiBook: string, ready: seq<Part>) {
    && (Chapterless(ready) ==> e.chapters == [])
    && (!Chapterless(ready) ==> exists out :: LaidOut(add, ready, out, |ready|) && e.chapters == Stored(out))
    && (|ready| > 1 ==>
          && e.key == JoinedKey(aiBook, ready) && e.format == FirstFormat(ready)
          && e.seconds == WholeSeconds(Cursor(add, ready, |ready|)))
    && (|ready| == 1 ==>
          && e.key == ready[0].key && e.format == ready[0].format
          && e.seconds == WholeSeconds(ready[0].duration))
  }

  class Ingest {
    var subs: map<Id, Submission>
    var editions: map<Id, Edition>
    const add: Plus
    /** The hash of the signature; nothing is assumed about it. */
    const digest: seq<(string, int)> -> string

    constructor (plus: Plus, hash: seq<(string, int)> -> string, submissions: map<Id, Submission>)
      ensures subs == submissions && editions == map[] && add == plus && digest == hash
    {
      subs := submissions;
      editions := map[];
      add := plus;
      digest := hash;
    }

    /** materialise: one file is used where it lies, several are joined. */
    method Materialise(aiBook: string, parts: seq<Part>, joinSucceeds: bool)
        returns (r: Result<(string, string, real, seq<Chapter>), SyncError>)
      requires parts != []
      ensures r.Ok? <==> Makes(parts, joinSucceeds)
      ensures r.Ok? <==> (|parts| == 1 && parts[0].duration > 0.0) || (|parts| != 1 && joinSucceeds)
      ensures r.Err? ==> r.error == JoinFailed
      ensures r.Ok? && |parts| > 1 ==> r.value.0 == "books/" + aiBook + "/audio/edition." + FirstFormat(parts)
      ensures r.Ok? && |parts| == 1 ==>
                r.value.0 == parts[0].key && r.value.1 == parts[0].format && r.value.2 == parts[0].duration
      ensures r.Ok? && |parts| > 1 ==>
                && r.value.0 == JoinedKey(aiBook, parts) && r.value.1 == FirstFormat(parts)
                && r.value.2 == Cursor(add, parts, |parts|)
      ensures r.Ok? ==> if Chapterless(parts) then r.value.3 == [] else LaidOut(add, parts, r.value.3, |parts|)
    {
      var format := FirstFormat(parts);
      if |parts| == 1 {
        if parts[0].duration <= 0.0 {
          return Err(JoinFailed);
        }
        var chapters := ChaptersFrom(add, parts);
        return Ok((parts[0].key, parts[0].format, parts[0].duration, chapters));
      }
      if !joinSucceeds {
        return Err(JoinFailed);
      }
      var total := TotalDuration(add, parts);
      var chapters := ChaptersFrom(add, parts);
      var key := "books/" + aiBook + "/audio/edition." + format;
      return Ok((key, format, total, chapters));
    }

    /** SyncAudio. Unchanged audio is recognised by its signature and left alone. A failure to make the file, or of the
        transaction that writes the edition, is recorded on the submission and touches no edition. */
    method SyncAudio(id: Id, parts: seq<Part>, joinSucceeds: bool, saveSucceeds: bool)
        returns (r: Result<Submission, SyncError>)
      modifies this
      ensures id !in old(subs) ==> r == Err(NotFound) && subs == old(subs) && editions == old(editions)
      ensures id in old(subs) && Ready(parts) == [] ==>
                r == Err(NoAudioYet) && subs == old(subs) && editions == old(editions)
      ensures id in old(subs) && Ready(parts) != [] && Synced(old(subs)[id], parts) ==>
                r == Ok(old(subs)[id]) && subs == old(subs) && editions == old(editions)
      ensures r.Ok? ==>
                id in old(subs) && Ready(parts) != [] && id in subs && r.value == subs[id] && Synced(subs[id], parts)
      ensures r.Ok? && !Synced(old(subs)[id], parts) ==>
                && var sub := old(subs)[id].(status := AudioSynced, signature := digest(SignedParts(Ready(parts))));
                && subs == old(subs)[id := sub]
                && sub.book in editions && editions == old(editions)[sub.book := editions[sub.book]]
                && Covers(add, editions[sub.book], sub.aiBook, Ready(parts))
      ensures id in old(subs) && Ready(parts) != [] && !Synced(old(subs)[id], parts) ==>
                && (r.Ok? <==> Makes(Ready(parts), joinSucceeds) && saveSucceeds)
                && (r == Err(SaveFailed) <==> Makes(Ready(parts), joinSucceeds) && !saveSucceeds)
      ensures r.Err? && (r.error.JoinFailed? || r.error.SaveFailed?) ==>
                && id in old(subs) && editions == old(editions)
                && subs == old(subs)[id := old(subs)[id].(status := AudioFailed)]
    {
      if id !in subs {
        return Err(NotFound);
      }
      var sub := subs[id];
      var ready := ReadyParts(parts);
      if |ready| == 0 {
        return Err(NoAudioYet);
      }
      var signature := digest(SignedParts(ready));
      if sub.status.AudioSynced? && sub.signature == signature {
        return Ok(sub);
      }
      var made := Materialise(sub.aiBook, ready, joinSucceeds);
      if made.Err? {
        subs := subs[id := sub.(status := AudioFailed)];
        return Err(made.error);
      }
      if !saveSucceeds {
        subs := subs[id := sub.(status := AudioFailed)];
        return Err(SaveFailed);
      }
      var (key, format, duration, chapters) := made.value;
      editions := editions[sub.book := Edition(key, format, WholeSeconds(duration), Stored(chapters))];
      subs := subs[id := sub.(status := AudioSynced, signature := signature)];
      assert Chapterless(ready) ==> Stored(chapters) == [];
      assert |ready| == 1 ==> Cursor(add, ready, 1) == add(0.0, ready[0].duration);
      return Ok(subs[id]);
    }

    /** The submission was last synced from audio with this signature. */
    ghost predicate Synced(sub: Submission, parts: seq<Part>)
      reads this
    {
      sub.status.AudioSynced? && sub.signature == digest(SignedParts(Ready(parts)))
    }
  }

  /** The stored chapters of a synced edition tile the joined audio, to the millisecond. */
  lemma {:induction false} SyncedEditionTiles(add: Plus, e: Edition, aiBook: string, ready: seq<Part>)
    requires Grows(add) && NonNegative(ready) && ready != [] && !Chapterless(ready) && Covers(add, e, aiBook, ready)
    ensures TilesStored(e.chapters, Millis(Cursor(add, ready, |ready|)))
  {
    var out :| LaidOut(add, ready, out, |ready|) && e.chapters == Stored(out);
    ChaptersTile(add, ready, out);
    SeamsSurviveRounding(out, Cursor(add, ready, |ready|));
  }

  /** A second sync over the same parts changes nothing. */
  method SyncTwice(ingest: Ingest, id: Id, parts: seq<Part>, joins: (bool, bool), saves: (bool, bool))
      returns (a: Result<Submission, SyncError>, b: Result<Submission, SyncError>,
               ghost subs: map<Id, Submission>, ghost editions: map<Id, Edition>)
    modifies ingest
    ensures a.Ok? ==> b == a && ingest.subs == subs && ingest.editions == editions
  {
    a := ingest.SyncAudio(id, parts, joins.0, saves.0);
    subs, editions := ingest.subs, ingest.editions;
    b := ingest.SyncAudio(id, parts, joins.1, saves.1);
  }

  type Digest = seq<(string, int)> -> string

  ghost predicate Injective(digest: Digest) {
    forall a, b :: digest(a) == digest(b) ==> a == b
  }

  /** The same file of the same length, to the millisecond. */
  predicate SameFile(p: Part, q: Part) {
    p.key == q.key && Millis(p.duration) == Millis(q.duration)
  }

  predicate SameFiles(a: seq<Part>, b: seq<Part>) {
    |a| == |b| && forall i :: 0 <= i < |a| ==> SameFile(a[i], b[i])
  }

  /** Under a digest without collisions a signature stands for exactly the files, their lengths and their order. */
  lemma SignatureMeans(digest: Digest, a: seq<Part>, b: seq<Part>)
    requires Injective(digest)
    ensures digest(SignedParts(a)) == digest(SignedParts(b)) <==> SameFiles(a, b)
  {
    var x, y := SignedParts(a), SignedParts(b);
    if x == y {
      forall i | 0 <= i < |a| ensures SameFile(a[i], b[i]) {
        assert x[i] == y[i];
      }
    }
    if SameFiles(a, b) {
      forall i | 0 <= i < |a| ensures x[i] == y[i] {
        assert SameFile(a[i], b[i]);
      }
    }
  }

  /** A part added, dropped, replaced or of another length is noticed: the next sync makes the edition anew. */
  method SyncChanged(ingest: Ingest, id: Id, parts: seq<Part>, parts': seq<Part>, joins: (bool, bool),
                     saves: (bool, bool))
      returns (a: Result<Submission, SyncError>, b: Result<Submission, SyncError>)
    requires Injective(ingest.digest) && !SameFiles(Ready(parts), Ready(parts'))
    modifies ingest
    ensures a.Ok? ==>
              (b.Ok? <==> Ready(parts') != [] && Makes(Ready(parts'), joins.1) && saves.1)
    ensures a.Ok? && b.Ok? ==>
              b.value.book in ingest.editions
              && Covers(ingest.add, ingest.editions[b.value.book], b.value.aiBook, Ready(parts'))
  {
    SignatureMeans(ingest.digest, Ready(parts), Ready(parts'));
    a := ingest.SyncAudio(id, parts, joins.0, saves.0);
    b := ingest.SyncAudio(id, parts', joins.1, saves.1);
  }
}
