/** Framing of an Annex B byte stream (ITU-T H.264, B.1) into access units. */
module AnnexB {
  // `Pieces` cuts a complete stream at the canonical start of every access unit delimiter but
  // the first.  The class reads the same stream in arbitrary chunks, keeps only the unfinished
  // unit, and resumes its search where the last one stopped, less an overlap.  The two agree on
  // every byte sequence: nothing is assumed about emulation prevention.

  import opened Bytes

  /** Bytes of a start code and delimiter header that may still be incomplete. */
  const OVERLAP := 4

  // ---------- Delimiters ----------

  /** A four byte start code followed by the header of an access unit delimiter. */
  predicate Long(s: bytes, p: int) {
    0 <= p && p + 5 <= |s| && s[p] == 0 && s[p+1] == 0 && s[p+2] == 0 && s[p+3] == 1 && s[p+4] == 9
  }

  /** The same with a three byte start code. */
  predicate Short(s: bytes, p: int) {
    0 <= p && p + 4 <= |s| && s[p] == 0 && s[p+1] == 0 && s[p+2] == 1 && s[p+3] == 9
  }

  /** A delimiter starts at `p`, and no earlier zero byte belongs to its start code. */
  predicate Start(s: bytes, p: int) {
    Long(s, p) || (Short(s, p) && (p == 0 || s[p-1] != 0))
  }

  function Width(s: bytes, p: int): nat {
    if Long(s, p) then 5 else 4
  }

  /** The first delimiter start at or after `i`, or the end of the stream. */
  function NextStart(s: bytes, i: nat): (n: nat)
    requires i <= |s|
    ensures i <= n <= |s|
    decreases |s| - i
  {
    if i == |s| || Start(s, i) then i else NextStart(s, i + 1)
  }

  lemma NextIsStart(s: bytes, i: nat)
    requires i <= |s| && NextStart(s, i) < |s|
    ensures Start(s, NextStart(s, i))
    decreases |s| - i
  {
    if !Start(s, i) { NextIsStart(s, i + 1); }
  }

  lemma NoStartBefore(s: bytes, i: nat, p: nat)
    requires i <= |s| && i <= p < NextStart(s, i)
    ensures !Start(s, p)
    decreases p - i
  {
    if i < p { NoStartBefore(s, i + 1, p); }
  }

  lemma NextStartIs(s: bytes, i: nat, n: nat)
    requires i <= n <= |s|
    requires n < |s| ==> Start(s, n)
    requires forall p :: i <= p < n ==> !Start(s, p)
    ensures NextStart(s, i) == n
    decreases n - i
  {
    if i < n { NextStartIs(s, i + 1, n); }
  }

  // ---------- The whole-stream split ----------

  /** `s[base..]` cut at every delimiter start at or after `i`. */
  function Cut(s: bytes, base: nat, i: nat): (units: seq<bytes>)
    requires base <= i <= |s|
    ensures |units| > 0
    decreases |s| - i
  {
    var n := NextStart(s, i);
    if n == |s| then [s[base..]] else [s[base..n]] + Cut(s, n, n + 1)
  }

  /** The same when the unit at `base` still waits for its own delimiter. */
  function Rest(s: bytes, base: nat, i: nat, started: bool): (units: seq<bytes>)
    requires base <= i <= |s|
    ensures |units| > 0
  {
    var first := NextStart(s, i);
    if started then Cut(s, base, i)
    else if first == |s| then [s[base..]]
    else Cut(s, base, first + 1)
  }

  /** The stream cut at every delimiter start except the first. */
  function Pieces(s: bytes): (units: seq<bytes>)
    ensures |units| > 0
  {
    Rest(s, 0, 0, false)
  }

  predicate HasDelimiter(s: bytes) {
    NextStart(s, 0) < |s|
  }

  /** The access units of a complete stream: none when it holds no delimiter. */
  function Split(s: bytes): seq<bytes> {
    if HasDelimiter(s) then Pieces(s) else []
  }

  /** Every unit, the unfinished one included, is within the bound. */
  ghost predicate Fits(s: bytes, maximum: nat) {
    Within(Pieces(s), maximum)
  }

  ghost predicate Within(units: seq<bytes>, maximum: nat) {
    forall i :: 0 <= i < |units| ==> |units[i]| <= maximum
  }

  // ---------- The regular expression search ----------

  datatype Hit = NoHit | Hit(start: nat, stop: nat)

  /** Leftmost match of either delimiter form at or after `from`, the longer form first. */
  function Search(s: bytes, from: nat): (h: Hit)
    requires from <= |s|
    ensures h.Hit? ==> from <= h.start < h.stop <= |s|
    decreases |s| - from
  {
    if Long(s, from) then Hit(from, from + 5)
    else if Short(s, from) then Hit(from, from + 4)
    else if from == |s| then NoHit
    else Search(s, from + 1)
  }

  lemma SearchMatches(s: bytes, from: nat)
    requires from <= |s| && Search(s, from).Hit?
    ensures var h := Search(s, from);
            (Long(s, h.start) || Short(s, h.start)) && h.stop == h.start + Width(s, h.start)
    decreases |s| - from
  {
    if !Long(s, from) && !Short(s, from) { SearchMatches(s, from + 1); }
  }

  /** The search reports the leftmost match and misses none. */
  lemma SearchIsLeftmost(s: bytes, from: nat, p: nat)
    requires from <= p && from <= |s|
    requires Search(s, from).Hit? ==> p < Search(s, from).start
    ensures !Long(s, p) && !Short(s, p)
    decreases p - from
  {
    if from < p && from < |s| { SearchIsLeftmost(s, from + 1, p); }
  }

  // ---------- Incremental framing ----------

  /** The units of `w` are those already cut off, then the rest from `base`, and the
      search may resume at `cursor`. */
  ghost predicate ResumesIn(w: bytes, emitted: seq<bytes>, base: nat, cursor: nat, started: bool) {
    && base <= cursor <= |w|
    && Pieces(w) == emitted + Rest(w, base, cursor, started)
    && !Long(w, cursor - 1)
    && (started ==> NextStart(w, base) < cursor)
    && (!started ==> base == 0 && emitted == [] && NextStart(w, 0) >= cursor)
  }

  /** The same for every stream that continues `s`. */
  ghost predicate Resumes(s: bytes, emitted: seq<bytes>, base: nat, cursor: nat, started: bool) {
    && base <= cursor <= |s|
    && forall w {:trigger ResumesIn(w, emitted, base, cursor, started)} ::
         s <= w ==> ResumesIn(w, emitted, base, cursor, started)
  }

  /** Appending bytes keeps every delimiter and can only add one in the overlap. */
  lemma StartStable(s: bytes, w: bytes, p: int)
    requires s <= w
    ensures Start(s, p) ==> Start(w, p) && Width(s, p) == Width(w, p)
    ensures Start(w, p) && p + OVERLAP < |s| ==> Start(s, p)
  {
  }

  /** What a match tells about the stream: the next delimiter start, whatever follows. */
  lemma MatchIsNextStart(s: bytes, w: bytes, base: nat, cursor: nat, h: Hit)
    requires s <= w && base <= cursor <= |s| && !Long(w, cursor - 1)
    requires h == Search(s[base..], cursor - base) && h.Hit?
    ensures Start(w, base + h.start) && h.stop == h.start + Width(w, base + h.start)
    ensures NextStart(w, cursor) == base + h.start
  {
    var b, n := s[base..], base + h.start;
    SearchMatches(b, cursor - base);
    if n > cursor { SearchIsLeftmost(b, cursor - base, n - 1 - base); }
    StartStable(s, w, n);
    forall p | cursor <= p < n ensures !Start(w, p) {
      StartStable(s, w, p);
      SearchIsLeftmost(b, cursor - base, p - base);
    }
    NextStartIs(w, cursor, n);
  }

  /** No delimiter starts inside another one. */
  lemma NoStartInside(s: bytes, n: nat)
    requires Start(s, n)
    ensures forall p :: n < p < n + Width(s, n) ==> !Start(s, p) && !Long(s, p)
  {
  }

  lemma SkipStarts(s: bytes, i: nat, j: nat)
    requires i <= j <= |s|
    requires forall p :: i <= p < j ==> !Start(s, p)
    ensures NextStart(s, i) == NextStart(s, j)
    decreases j - i
  {
    if i < j { SkipStarts(s, i + 1, j); }
  }

  lemma SkipTo(s: bytes, base: nat, i: nat, j: nat, started: bool)
    requires base <= i <= j <= |s|
    requires forall p :: i <= p < j ==> !Start(s, p)
    ensures Rest(s, base, i, started) == Rest(s, base, j, started)
  {
    SkipStarts(s, i, j);
    SameNext(s, base, i, j, started);
  }

  lemma SameNext(s: bytes, base: nat, i: nat, j: nat, started: bool)
    requires base <= i <= |s| && base <= j <= |s|
    requires NextStart(s, i) == NextStart(s, j)
    ensures Rest(s, base, i, started) == Rest(s, base, j, started)
  {
  }

  lemma SkipBefore(s: bytes, cursor: nat)
    requires cursor <= NextStart(s, 0)
    ensures NextStart(s, 0) == NextStart(s, cursor)
  {
    forall p | 0 <= p < cursor ensures !Start(s, p) { NoStartBefore(s, 0, p); }
    SkipStarts(s, 0, cursor);
  }

  /** The first delimiter of a stream opens the unit that its leading bytes belong to. */
  lemma FirstDelimiter(s: bytes, emitted: seq<bytes>, base: nat, cursor: nat, h: Hit)
    requires Resumes(s, emitted, base, cursor, false)
    requires h == Search(s[base..], cursor - base) && h.Hit?
    ensures Resumes(s, emitted, base, base + h.stop, true)
  {
    var n, next := base + h.start, base + h.stop;
    forall w | s <= w ensures ResumesIn(w, emitted, base, next, true) {
      assert ResumesIn(w, emitted, base, cursor, false);
      MatchIsNextStart(s, w, base, cursor, h);
      NoStartInside(w, n);
      SkipTo(w, base, n + 1, next, true);
      SkipBefore(w, cursor);
    }
  }

  /** Every further delimiter completes the unit before it. */
  lemma NextDelimiter(s: bytes, emitted: seq<bytes>, base: nat, cursor: nat, h: Hit)
    requires Resumes(s, emitted, base, cursor, true)
    requires h == Search(s[base..], cursor - base) && h.Hit?
    ensures Resumes(s, emitted + [s[base..base + h.start]], base + h.start, base + h.stop, true)
  {
    var n, next := base + h.start, base + h.stop;
    var grown := emitted + [s[base..n]];
    forall w | s <= w ensures ResumesIn(w, grown, n, next, true) {
      assert ResumesIn(w, emitted, base, cursor, true);
      MatchIsNextStart(s, w, base, cursor, h);
      CompletedUnit(w, emitted, base, cursor, n, next);
      assert w[base..n] == s[base..n];
    }
  }

  lemma CompletedUnit(w: bytes, emitted: seq<bytes>, base: nat, cursor: nat, n: nat, next: nat)
    requires ResumesIn(w, emitted, base, cursor, true)
    requires NextStart(w, cursor) == n < |w| && next == n + Width(w, n)
    ensures ResumesIn(w, emitted + [w[base..n]], n, next, true)
  {
    NextIsStart(w, cursor);
    NoStartInside(w, n);
    SkipTo(w, n, n + 1, next, true);
    NextStartIs(w, n, n);
    assert Rest(w, base, cursor, true) == [w[base..n]] + Rest(w, n, n + 1, true);
  }

  /** Where a search that found nothing resumes. */
  function Later(cursor: nat, length: nat): nat {
    if length >= OVERLAP && length - OVERLAP > cursor then length - OVERLAP else cursor
  }

  /** A miss: the rest of the stream is one unfinished unit, and after more bytes the
      search may resume at the overlap. */
  lemma NoDelimiter(s: bytes, emitted: seq<bytes>, base: nat, cursor: nat, started: bool)
    requires Resumes(s, emitted, base, cursor, started)
    requires Search(s[base..], cursor - base) == NoHit
    ensures Resumes(s, emitted, base, Later(cursor, |s|), started)
    ensures Pieces(s) == emitted + [s[base..]]
    ensures HasDelimiter(s) <==> started
  {
    var next := Later(cursor, |s|);
    forall p | cursor <= p ensures !Start(s, p) && !Long(s, p) {
      MissIsFinal(s, base, cursor, p);
    }
    assert ResumesIn(s, emitted, base, cursor, started);
    UnfinishedUnit(s, emitted, base, cursor, started);
    forall w | s <= w ensures ResumesIn(w, emitted, base, next, started) {
      assert ResumesIn(w, emitted, base, cursor, started);
      Resume(s, w, emitted, base, cursor, started);
    }
  }

  lemma MissIsFinal(s: bytes, base: nat, cursor: nat, p: int)
    requires base <= cursor <= |s| && cursor <= p
    requires Search(s[base..], cursor - base) == NoHit
    ensures !Start(s, p) && !Long(s, p)
  {
    SearchIsLeftmost(s[base..], cursor - base, p - base);
  }

  lemma UnfinishedUnit(s: bytes, emitted: seq<bytes>, base: nat, cursor: nat, started: bool)
    requires ResumesIn(s, emitted, base, cursor, started)
    requires forall p :: cursor <= p ==> !Start(s, p)
    ensures Pieces(s) == emitted + [s[base..]]
    ensures HasDelimiter(s) <==> started
  {
    NextStartIs(s, cursor, |s|);
    if started {
      NextIsStart(s, base);
      if NextStart(s, 0) == |s| { NoStartBefore(s, 0, NextStart(s, base)); }
    } else {
      SkipBefore(s, cursor);
    }
  }

  lemma Resume(s: bytes, w: bytes, emitted: seq<bytes>, base: nat, cursor: nat, started: bool)
    requires s <= w && ResumesIn(w, emitted, base, cursor, started) && cursor <= |s|
    requires forall p :: cursor <= p ==> !Start(s, p) && !Long(s, p)
    ensures ResumesIn(w, emitted, base, Later(cursor, |s|), started)
  {
    var next := Later(cursor, |s|);
    forall p | cursor <= p < next ensures !Start(w, p) {
      StartStable(s, w, p);
    }
    SkipTo(w, base, cursor, next, started);
    if !started {
      SkipBefore(w, cursor);
      SkipStarts(w, cursor, next);
    }
    if next > cursor { NoLongBefore(s, w, cursor); }
  }

  lemma NoLongBefore(s: bytes, w: bytes, cursor: nat)
    requires s <= w && Later(cursor, |s|) > cursor
    requires !Long(s, Later(cursor, |s|) - 1)
    ensures !Long(w, Later(cursor, |s|) - 1)
  {
  }

  // ---------- The framer ----------

  /** `buffer` is what is left of `stream` at `base`, after cutting off `emitted`. */
  ghost predicate Framed(stream: bytes, emitted: seq<bytes>, base: nat, buffer: bytes, scanFrom: nat, started: bool) {
    && base <= |stream|
    && buffer == stream[base..]
    && scanFrom <= |buffer|
    && Resumes(stream, emitted, base, base + scanFrom, started)
  }

  lemma ResumesInitially()
    ensures Resumes([], [], 0, 0, false)
  {
    forall w: bytes | [] <= w ensures ResumesIn(w, [], 0, 0, false) {
      assert [] + Rest(w, 0, 0, false) == Rest(w, 0, 0, false);
    }
  }

  lemma ResumesAfter(s: bytes, data: bytes, emitted: seq<bytes>, base: nat, cursor: nat, started: bool)
    requires Resumes(s, emitted, base, cursor, started)
    ensures Resumes(s + data, emitted, base, cursor, started)
  {
    forall w | s + data <= w ensures ResumesIn(w, emitted, base, cursor, started) {
      assert s <= w by {
        assert s == (s + data)[..|s|] == w[..|s|];
      }
    }
  }

  lemma FramedAfter(stream: bytes, emitted: seq<bytes>, base: nat, buffer: bytes, scanFrom: nat, started: bool,
                    data: bytes)
    requires Framed(stream, emitted, base, buffer, scanFrom, started)
    ensures Framed(stream + data, emitted, base, buffer + data, scanFrom, started)
  {
    ResumesAfter(stream, data, emitted, base, base + scanFrom, started);
    assert (stream + data)[base..] == buffer + data;
  }

  lemma FramedMiss(stream: bytes, emitted: seq<bytes>, base: nat, buffer: bytes, scanFrom: nat, started: bool)
    requires Framed(stream, emitted, base, buffer, scanFrom, started)
    requires Search(buffer, scanFrom) == NoHit
    ensures Framed(stream, emitted, base, buffer, Later(scanFrom, |buffer|), started)
    ensures Pieces(stream) == emitted + [buffer]
    ensures HasDelimiter(stream) <==> started
  {
    NoDelimiter(stream, emitted, base, base + scanFrom, started);
    assert base + Later(scanFrom, |buffer|) == Later(base + scanFrom, |stream|);
  }

  lemma FramedFirst(stream: bytes, emitted: seq<bytes>, base: nat, buffer: bytes, scanFrom: nat, h: Hit)
    requires Framed(stream, emitted, base, buffer, scanFrom, false)
    requires h == Search(buffer, scanFrom) && h.Hit?
    ensures Framed(stream, emitted, base, buffer, h.stop, true)
  {
    FirstDelimiter(stream, emitted, base, base + scanFrom, h);
  }

  lemma FramedNext(stream: bytes, emitted: seq<bytes>, base: nat, buffer: bytes, scanFrom: nat, h: Hit)
    requires Framed(stream, emitted, base, buffer, scanFrom, true)
    requires h == Search(buffer, scanFrom) && h.Hit?
    ensures Framed(stream, emitted + [buffer[..h.start]], base + h.start, buffer[h.start..], h.stop - h.start, true)
  {
    NextDelimiter(stream, emitted, base, base + scanFrom, h);
    assert stream[base..base + h.start] == buffer[..h.start];
  }

  /** The loop either finds a unit that is too long, or leaves only the buffer to check. */
  lemma OversizedUnit(stream: bytes, emitted: seq<bytes>, base: nat, buffer: bytes, scanFrom: nat, h: Hit, maximum: nat)
    requires Framed(stream, emitted, base, buffer, scanFrom, true)
    requires h == Search(buffer, scanFrom) && h.Hit? && h.start > maximum
    ensures !Fits(stream, maximum)
  {
    FramedNext(stream, emitted, base, buffer, scanFrom, h);
    var grown := emitted + [buffer[..h.start]];
    assert ResumesIn(stream, grown, base + h.start, base + h.stop, true);
    assert Pieces(stream)[|emitted|] == grown[|emitted|];
  }

  lemma LastUnitDecides(s: bytes, emitted: seq<bytes>, last: bytes, maximum: nat)
    requires Pieces(s) == emitted + [last]
    ensures Fits(s, maximum) <==> Within(emitted, maximum) && |last| <= maximum
  {
    var units := Pieces(s);
    assert forall i :: 0 <= i < |emitted| ==> units[i] == emitted[i];
    assert units[|emitted|] == last;
  }

  /** The outcome of one search of the buffer. */
  datatype Step = Missed | Found(units: seq<bytes>) | Oversized

  lemma MatchInSuffix(s: bytes, base: nat, p: nat)
    requires base <= p && base <= |s|
    ensures Long(s[base..], p - base) <==> Long(s, p)
    ensures Short(s[base..], p - base) <==> Short(s, p)
  {
  }

  /** The final buffer matches the delimiter expression exactly when the stream does. */
  lemma LastBufferMatches(stream: bytes, emitted: seq<bytes>, base: nat, buffer: bytes, scanFrom: nat, started: bool)
    requires Framed(stream, emitted, base, buffer, scanFrom, started)
    requires HasDelimiter(stream) <==> started
    ensures Search(buffer, 0).Hit? <==> started
  {
    assert ResumesIn(stream, emitted, base, base + scanFrom, started);
    if started {
      var n := NextStart(stream, base);
      NextIsStart(stream, base);
      MatchInSuffix(stream, base, n);
      if Search(buffer, 0).NoHit? { SearchIsLeftmost(buffer, 0, n - base); }
    } else if Search(buffer, 0).Hit? {
      assert buffer == stream[0..];
      MatchIsNextStart(stream, stream, 0, 0, Search(buffer, 0));
    }
  }

  /** Units already cut off are units of every stream that continues this one. */
  lemma EmittedStays(s: bytes, w: bytes, emitted: seq<bytes>, base: nat, cursor: nat, started: bool)
    requires s <= w && Resumes(s, emitted, base, cursor, started)
    ensures emitted <= Split(w)
  {
    assert ResumesIn(w, emitted, base, cursor, started);
    if started {
      NextIsStart(w, base);
      if NextStart(w, 0) == |w| { NoStartBefore(w, 0, NextStart(w, base)); }
    }
  }

  lemma FramedEmits(s: bytes, w: bytes, emitted: seq<bytes>, base: nat, buffer: bytes, scanFrom: nat, started: bool)
    requires s <= w && Framed(s, emitted, base, buffer, scanFrom, started)
    ensures emitted <= Split(w)
  {
    EmittedStays(s, w, emitted, base, base + scanFrom, started);
  }

  lemma FinalUnit(stream: bytes, emitted: seq<bytes>, base: nat, buffer: bytes, scanFrom: nat, started: bool)
    requires Framed(stream, emitted, base, buffer, scanFrom, started)
    requires Pieces(stream) == emitted + [buffer] && (HasDelimiter(stream) <==> started)
    ensures Split(stream) == emitted + if buffer != [] && Search(buffer, 0).Hit? then [buffer] else []
  {
    LastBufferMatches(stream, emitted, base, buffer, scanFrom, started);
    assert ResumesIn(stream, emitted, base, base + scanFrom, started);
  }

  datatype FeedResult = Units(units: seq<bytes>) | Exceeded

  /** The incremental framer.  The ghost fields record the whole stream fed so far, the
      units cut off it, how many bytes the searches have visited and how many feeds there
      were. */
  class AccessUnits {
    var buffer: bytes
    var scanFrom: nat
    var unitStarted: bool
    const maximum: nat
    ghost var stream: bytes
    ghost var base: nat
    ghost var emitted: seq<bytes>
    ghost var scanned: nat
    ghost var feeds: nat

    ghost predicate Valid()
      reads this
    {
      Framed(stream, emitted, base, buffer, scanFrom, unitStarted)
    }

    /** The last feed returned: the buffer is the unfinished unit and every unit is within
        the bound. */
    ghost predicate AtRest()
      reads this
    {
      && Pieces(stream) == emitted + [buffer]
      && (HasDelimiter(stream) <==> unitStarted)
      && Fits(stream, maximum)
    }

    /** Each search visited bytes not visited before, except for one overlap a feed. */
    ghost predicate Linear()
      reads this
    {
      scanned <= base + scanFrom + OVERLAP * feeds
    }

    constructor (maximum: nat)
      ensures Valid() && AtRest() && Linear() && this.maximum == maximum
      ensures stream == [] && emitted == [] && scanned == 0 && feeds == 0
    {
      buffer, scanFrom, unitStarted := [], 0, false;
      this.maximum := maximum;
      stream, base, emitted, scanned, feeds := [], 0, [], 0, 0;
      ResumesInitially();
    }

    lemma EmittedSoFar(w: bytes)
      requires Valid() && stream <= w
      ensures emitted <= Split(w)
    {
      FramedEmits(stream, w, emitted, base, buffer, scanFrom, unitStarted);
    }

    /** One round of the scanning loop: search from the cursor and act on the match. */
    method Advance() returns (step: Step)
      requires Valid()
      modifies this
      ensures Valid() && stream == old(stream) && feeds == old(feeds)
      ensures step.Missed? ==> emitted == old(emitted) && Pieces(stream) == emitted + [buffer]
      ensures step.Missed? ==> (HasDelimiter(stream) <==> unitStarted)
      ensures step.Missed? && old(scanned <= base + scanFrom + OVERLAP * (feeds - 1)) ==> Linear()
      ensures step.Found? ==> emitted == old(emitted) + step.units && Within(step.units, maximum)
      ensures step.Found? ==> |buffer| - scanFrom < old(|buffer| - scanFrom)
      ensures step.Found? ==> base + scanFrom - old(base + scanFrom) == scanned - old(scanned)
      ensures step.Oversized? ==> !Fits(stream, maximum) && emitted == old(emitted) && buffer == old(buffer)
      ensures step.Oversized? ==> scanned - old(scanned) <= |stream| - old(base + scanFrom)
    {
      var hit := Search(buffer, scanFrom);
      if hit.NoHit? {
        FramedMiss(stream, emitted, base, buffer, scanFrom, unitStarted);
        scanned := scanned + (|buffer| - scanFrom);
        scanFrom := Later(scanFrom, |buffer|);
        return Missed;
      }
      if !unitStarted {
        FramedFirst(stream, emitted, base, buffer, scanFrom, hit);
        scanned := scanned + (hit.stop - scanFrom);
        unitStarted := true;
        scanFrom := hit.stop;
        return Found([]);
      }
      var unit := buffer[..hit.start];
      if |unit| > maximum {
        OversizedUnit(stream, emitted, base, buffer, scanFrom, hit, maximum);
        scanned := scanned + (hit.stop - scanFrom);
        return Oversized;
      }
      FramedNext(stream, emitted, base, buffer, scanFrom, hit);
      scanned := scanned + (hit.stop - scanFrom);
      emitted, base := emitted + [unit], base + hit.start;
      buffer, scanFrom := buffer[hit.start..], hit.stop - hit.start;
      return Found([unit]);
    }

    /** Append a chunk and return the units it completes, or refuse an oversized unit. */
    method Feed(data: bytes) returns (r: FeedResult)
      requires Valid()
      modifies this
      ensures Valid() && stream == old(stream) + data && feeds == old(feeds) + 1
      ensures old(AtRest()) ==> (r.Exceeded? <==> !Fits(stream, maximum))
      ensures old(AtRest()) && r.Units? ==> AtRest() && emitted == old(emitted) + r.units
      ensures old(Linear()) ==> scanned <= |stream| + OVERLAP * feeds && (r.Units? ==> Linear())
    {
      ghost var rest, linear := AtRest(), Linear();
      if rest { LastUnitDecides(stream, emitted, buffer, maximum); }
      FramedAfter(stream, emitted, base, buffer, scanFrom, unitStarted, data);
      buffer, stream, feeds := buffer + data, stream + data, feeds + 1;
      var units: seq<bytes> := [];
      while true
        invariant Valid()
        invariant stream == old(stream) + data && feeds == old(feeds) + 1
        invariant emitted == old(emitted) + units
        invariant rest ==> Within(emitted, maximum)
        invariant linear ==> scanned <= base + scanFrom + OVERLAP * (feeds - 1)
        decreases |buffer| - scanFrom
      {
        var step := Advance();
        match step {
          case Missed => break;
          case Oversized => return Exceeded;
          case Found(found) => units := units + found;
        }
      }
      LastUnitDecides(stream, emitted, buffer, maximum);
      if |buffer| > maximum {
        return Exceeded;
      }
      return Units(units);
    }

    /** End of stream: the buffer is the last unit if it holds a delimiter at all. */
    method Finish() returns (units: seq<bytes>)
      requires Valid() && AtRest()
      modifies this
      ensures old(emitted) + units == Split(old(stream))
      ensures Valid() && AtRest() && stream == [] && emitted == []
    {
      FinalUnit(stream, emitted, base, buffer, scanFrom, unitStarted);
      var data := buffer;
      units := if data != [] && Search(data, 0).Hit? then [data] else [];
      buffer, scanFrom, unitStarted := [], 0, false;
      stream, base, emitted, scanned, feeds := [], 0, [], 0, 0;
      ResumesInitially();
    }
  }

  // ---------- Every chunking of a stream ----------

  function Flatten(chunks: seq<bytes>): bytes {
    if chunks == [] then [] else Flatten(chunks[..|chunks|-1]) + chunks[|chunks|-1]
  }

  lemma FlattenPrefix(chunks: seq<bytes>, k: nat)
    requires k <= |chunks|
    ensures Flatten(chunks[..k]) <= Flatten(chunks)
  {
    if k < |chunks| {
      var most := chunks[..|chunks|-1];
      assert most[..k] == chunks[..k];
      FlattenPrefix(most, k);
    } else {
      assert chunks[..k] == chunks;
    }
  }

  ghost predicate AcceptedUpTo(chunks: seq<bytes>, n: nat, maximum: nat)
    requires n <= |chunks|
  {
    forall k {:trigger chunks[..k]} :: 0 <= k <= n ==> Fits(Flatten(chunks[..k]), maximum)
  }

  /** No feed of this chunking meets an oversized unit. */
  ghost predicate Accepted(chunks: seq<bytes>, maximum: nat) {
    AcceptedUpTo(chunks, |chunks|, maximum)
  }

  lemma UpToNext(chunks: seq<bytes>, i: nat)
    requires i < |chunks|
    ensures Flatten(chunks[..i + 1]) == Flatten(chunks[..i]) + chunks[i]
    ensures Flatten(chunks[..i]) <= Flatten(chunks)
  {
    var upTo := chunks[..i + 1];
    assert upTo[..i] == chunks[..i] && upTo[i] == chunks[i];
    FlattenPrefix(chunks, i);
  }

  lemma OneMoreAccepted(chunks: seq<bytes>, i: nat, maximum: nat)
    requires i < |chunks| && AcceptedUpTo(chunks, i, maximum) && Fits(Flatten(chunks[..i + 1]), maximum)
    ensures AcceptedUpTo(chunks, i + 1, maximum)
  {
    forall k {:trigger chunks[..k]} | 0 <= k <= i + 1 ensures Fits(Flatten(chunks[..k]), maximum) {
      if k == i + 1 { assert chunks[..k] == chunks[..i + 1]; }
    }
  }

  lemma EmptyStream(maximum: nat)
    ensures Fits([], maximum)
  {
    var none: bytes := [];
    assert Pieces(none) == [none];
  }

  /** The reader loop of the preview encoder: feed every chunk, then finish. */
  method Drain(maximum: nat, chunks: seq<bytes>) returns (units: seq<bytes>, ok: bool)
    ensures ok <==> Accepted(chunks, maximum)
    ensures ok ==> units == Split(Flatten(chunks))
    ensures units <= Split(Flatten(chunks))
  {
    var parser := new AccessUnits(maximum);
    units := [];
    var i := 0;
    assert chunks[..0] == [];
    EmptyStream(maximum);
    while i < |chunks|
      invariant 0 <= i <= |chunks|
      invariant parser.Valid() && parser.AtRest() && parser.maximum == maximum && fresh(parser)
      invariant parser.stream == Flatten(chunks[..i]) && parser.emitted == units
      invariant AcceptedUpTo(chunks, i, maximum)
    {
      UpToNext(chunks, i);
      parser.EmittedSoFar(Flatten(chunks));
      var r := parser.Feed(chunks[i]);
      if r.Exceeded? {
        assert !Fits(Flatten(chunks[..i + 1]), maximum);
        return units, false;
      }
      OneMoreAccepted(chunks, i, maximum);
      units := units + r.units;
      i := i + 1;
    }
    assert chunks[..i] == chunks;
    var last := parser.Finish();
    return units + last, true;
  }
}
