/** What the split means, and how the bound depends on chunking. */
module AnnexBChunking {
  import opened AnnexB
  import opened Bytes

  // ---------- The split is the only one ----------

  ghost predicate OneStart(s: bytes, lo: nat, hi: nat) {
    exists p :: lo <= p < hi && Start(s, p) && forall q :: lo <= q < hi && Start(s, q) ==> q == p
  }

  /** `units` are consecutive stretches of `s[base..]`, each with exactly one delimiter,
      and every one after the first begins with its delimiter. */
  ghost predicate IsSplitFrom(s: bytes, base: nat, units: seq<bytes>)
    decreases |units|
  {
    && units != []
    && var stop := base + |units[0]|;
    && stop <= |s|
    && units[0] == s[base..stop]
    && OneStart(s, base, stop)
    && if |units| == 1 then stop == |s| else Start(s, stop) && IsSplitFrom(s, stop, units[1..])
  }

  /** With the first delimiter at `d`, the stretch up to the next start holds only `d`. */
  lemma FirstStretch(s: bytes, base: nat, d: nat)
    requires base <= d < |s| && NextStart(s, base) == d
    ensures Start(s, d)
    ensures forall q :: base <= q < NextStart(s, d + 1) && Start(s, q) ==> q == d
  {
    NextIsStart(s, base);
    forall q | base <= q < NextStart(s, d + 1) && q != d ensures !Start(s, q) {
      if q < d { NoStartBefore(s, base, q); } else { NoStartBefore(s, d + 1, q); }
    }
  }

  lemma {:induction false} CutIsSplit(s: bytes, base: nat, d: nat)
    requires base <= d < |s| && NextStart(s, base) == d
    ensures IsSplitFrom(s, base, Cut(s, base, d + 1))
    decreases |s| - d
  {
    var n, units := NextStart(s, d + 1), Cut(s, base, d + 1);
    FirstStretch(s, base, d);
    assert OneStart(s, base, n);
    assert units[0] == s[base..n];
    if n < |s| {
      NextIsStart(s, d + 1);
      NextStartIs(s, n, n);
      CutIsSplit(s, n, n);
      assert units[1..] == Cut(s, n, n + 1);
    }
  }

  lemma {:induction false} SplitIsCut(s: bytes, base: nat, d: nat, units: seq<bytes>)
    requires base <= d < |s| && NextStart(s, base) == d
    requires IsSplitFrom(s, base, units)
    ensures units == Cut(s, base, d + 1)
    decreases |s| - d
  {
    var n, stop := NextStart(s, d + 1), base + |units[0]|;
    FirstStretch(s, base, d);
    var only :| base <= only < stop && Start(s, only) && forall q :: base <= q < stop && Start(s, q) ==> q == only;
    assert only == d || only >= n;
    if n < |s| {
      NextIsStart(s, d + 1);
      NextStartIs(s, n, n);
      assert stop <= n;
      if |units| > 1 {
        assert stop == n;
        SplitIsCut(s, n, n, units[1..]);
      }
      assert units == [units[0]] + units[1..];
    } else {
      assert |units| == 1 && stop == |s|;
      assert units[0] == s[base..];
      assert units == [units[0]];
    }
  }

  /** The units of a stream with a delimiter are the only such stretches. */
  lemma SplitIsOnlySplit(s: bytes, units: seq<bytes>)
    ensures IsSplitFrom(s, 0, units) <==> HasDelimiter(s) && units == Split(s)
  {
    var d := NextStart(s, 0);
    if d < |s| {
      CutIsSplit(s, 0, d);
      if IsSplitFrom(s, 0, units) { SplitIsCut(s, 0, d, units); }
    } else if IsSplitFrom(s, 0, units) {
      var p :| 0 <= p < |units[0]| && Start(s, p);
      NoStartBefore(s, 0, p);
      assert false;
    }
  }

  lemma {:induction false} SplitFromConcatenates(s: bytes, base: nat, units: seq<bytes>)
    requires base <= |s| && IsSplitFrom(s, base, units)
    ensures Concat(units) == s[base..]
    decreases |units|
  {
    var stop := base + |units[0]|;
    assert s[base..] == units[0] + s[stop..];
    if |units| > 1 { SplitFromConcatenates(s, stop, units[1..]); } else { assert units[1..] == []; }
  }

  function Concat(units: seq<bytes>): bytes {
    if units == [] then [] else units[0] + Concat(units[1..])
  }

  lemma {:induction false} SplitFromHoldsOne(s: bytes, base: nat, units: seq<bytes>, i: nat)
    requires base <= |s| && IsSplitFrom(s, base, units) && i < |units|
    requires base == 0 || Start(s, base)
    ensures OneStart(units[i], 0, |units[i]|)
    decreases |units|
  {
    var stop := base + |units[0]|;
    if i > 0 {
      SplitFromHoldsOne(s, stop, units[1..], i - 1);
    } else {
      var u := units[0];
      forall p | 0 <= p < |u| ensures Start(u, p) <==> Start(s, base + p) {
        StandsAlone(s, base, stop, p);
      }
      var d :| base <= d < stop && Start(s, d) && forall q :: base <= q < stop && Start(s, q) ==> q == d;
      assert Start(u, d - base);
    }
  }

  /** Delimiters of a unit taken alone are delimiters of the stream. */
  lemma StandsAlone(s: bytes, base: nat, stop: nat, p: nat)
    requires base + p < stop <= |s|
    requires base == 0 || Start(s, base)
    requires stop == |s| || Start(s, stop)
    ensures Start(s[base..stop], p) <==> Start(s, base + p)
  {
    var u := s[base..stop];
    if Start(s, base + p) {
      NoStartInside(s, base + p);
    }
  }

  /** The emitted units concatenate to the stream exactly when it holds a delimiter (or is
      empty), and each holds exactly one delimiter of its own. */
  lemma SplitConserves(s: bytes)
    ensures Concat(Split(s)) == s <==> HasDelimiter(s) || s == []
    ensures forall i :: 0 <= i < |Split(s)| ==> OneStart(Split(s)[i], 0, |Split(s)[i]|)
  {
    if HasDelimiter(s) {
      SplitIsOnlySplit(s, Split(s));
      SplitFromConcatenates(s, 0, Split(s));
      forall i | 0 <= i < |Split(s)| ensures OneStart(Split(s)[i], 0, |Split(s)[i]|) {
        SplitFromHoldsOne(s, 0, Split(s), i);
      }
    }
  }

  // ---------- The bound under chunking ----------

  /** Every completed unit, with all but the last byte of the delimiter after it, is within
      the bound, and so is the final unit. */
  predicate RobustFrom(s: bytes, base: nat, i: nat, maximum: nat)
    requires base <= i <= |s|
    decreases |s| - i
  {
    var n := NextStart(s, i);
    if n == |s| then |s| - base <= maximum
    else n - base + Width(s, n) - 1 <= maximum && RobustFrom(s, n, n + 1, maximum)
  }

  predicate Robust(s: bytes, maximum: nat) {
    var first := NextStart(s, 0);
    if first == |s| then |s| <= maximum else RobustFrom(s, 0, first + 1, maximum)
  }

  /** The next delimiter of a prefix is that of the stream, once it is complete. */
  lemma NextStartOfPrefix(s: bytes, m: nat, i: nat)
    requires i <= m <= |s|
    ensures var n := NextStart(s, i);
            NextStart(s[..m], i) == if n < |s| && n + Width(s, n) <= m then n else m
  {
    var n, t := NextStart(s, i), s[..m];
    var k := if n < |s| && n + Width(s, n) <= m then n else m;
    if n < |s| { NextIsStart(s, i); NoStartInside(s, n); }
    forall p | i <= p < k ensures !Start(t, p) {
      StartStable(t, s, p);
      if p < n { NoStartBefore(s, i, p); }
    }
    if k < m { assert Start(t, n); }
    NextStartIs(t, i, k);
  }

  lemma {:induction false} RobustPrefixFits(s: bytes, m: nat, base: nat, i: nat, maximum: nat)
    requires base <= i <= m <= |s| && RobustFrom(s, base, i, maximum)
    ensures Within(Cut(s[..m], base, i), maximum)
    decreases |s| - i
  {
    var n := NextStart(s, i);
    NextStartOfPrefix(s, m, i);
    if n < |s| && n + Width(s, n) <= m {
      RobustPrefixFits(s, m, n, n + 1, maximum);
    }
  }

  lemma {:induction false} FittingPrefixesAreRobust(s: bytes, base: nat, i: nat, maximum: nat)
    requires base <= i <= |s|
    requires forall m {:trigger s[..m]} :: i <= m <= |s| ==> Within(Cut(s[..m], base, i), maximum)
    ensures RobustFrom(s, base, i, maximum)
    decreases |s| - i
  {
    var n := NextStart(s, i);
    if n == |s| {
      assert s[..|s|] == s;
      assert Cut(s, base, i)[0] == s[base..];
    } else {
      var w := Width(s, n);
      NextIsStart(s, i);
      var k := n + w - 1;
      LastPieceOfPrefix(s, k, base, i);
      assert Within(Cut(s[..k], base, i), maximum);
      assert Cut(s[..k], base, i)[0] == s[base..k];
      forall m {:trigger s[..m]} | n + 1 <= m <= |s| ensures Within(Cut(s[..m], n, n + 1), maximum) {
        LaterPieces(s, m, base, i, maximum);
      }
      FittingPrefixesAreRobust(s, n, n + 1, maximum);
    }
  }

  lemma LastPieceOfPrefix(s: bytes, m: nat, base: nat, i: nat)
    requires base <= i <= m <= |s|
    requires var n := NextStart(s, i); n < |s| ==> m < n + Width(s, n)
    ensures Cut(s[..m], base, i) == [s[base..m]]
  {
    NextStartOfPrefix(s, m, i);
    assert s[..m][base..] == s[base..m];
  }

  lemma LaterPieces(s: bytes, m: nat, base: nat, i: nat, maximum: nat)
    requires base <= i <= |s| && NextStart(s, i) < m <= |s|
    requires forall k {:trigger s[..k]} :: i <= k <= |s| ==> Within(Cut(s[..k], base, i), maximum)
    ensures var n := NextStart(s, i); Within(Cut(s[..m], n, n + 1), maximum)
  {
    var n := NextStart(s, i);
    var w := Width(s, n);
    NextIsStart(s, i);
    var k := if m < n + w then n + w else m;
    NextStartOfPrefix(s, k, i);
    var all := Cut(s[..k], base, i);
    assert all[1..] == Cut(s[..k], n, n + 1);
    assert Within(Cut(s[..k], n, n + 1), maximum) by {
      forall j | 0 <= j < |all[1..]| ensures |all[1..][j]| <= maximum { assert all[1..][j] == all[j + 1]; }
    }
    if m < n + w {
      NoStartInside(s, n);
      NextStartOfPrefix(s, k, n + 1);
      if NextStart(s, n + 1) < |s| { NextIsStart(s, n + 1); }
      LastPieceOfPrefix(s, k, n, n + 1);
      LastPieceOfPrefix(s, m, n, n + 1);
      assert Cut(s[..k], n, n + 1)[0] == s[n..k];
    }
  }

  lemma RobustStreamFits(s: bytes, m: nat, maximum: nat)
    requires m <= |s| && Robust(s, maximum)
    ensures Fits(s[..m], maximum)
  {
    var first := NextStart(s, 0);
    NextStartOfPrefix(s, m, 0);
    if first < |s| {
      NextIsStart(s, 0);
      NoStartInside(s, first);
      if first + Width(s, first) <= m {
        RobustPrefixFits(s, m, 0, first + 1, maximum);
      } else if NextStart(s, first + 1) < |s| {
        NextIsStart(s, first + 1);
      }
    }
  }

  lemma FirstUnitOfPrefix(s: bytes, m: nat, maximum: nat)
    requires NextStart(s, 0) < m <= |s|
    requires forall k {:trigger s[..k]} :: 0 <= k <= |s| ==> Fits(s[..k], maximum)
    ensures Within(Cut(s[..m], 0, NextStart(s, 0) + 1), maximum)
  {
    var first := NextStart(s, 0);
    assert Fits(s[..m], maximum);
    NextIsStart(s, 0);
    NextStartOfPrefix(s, m, 0);
    if m < first + Width(s, first) {
      NoStartInside(s, first);
      if NextStart(s, first + 1) < |s| { NextIsStart(s, first + 1); }
      LastPieceOfPrefix(s, m, 0, first + 1);
      assert Pieces(s[..m])[0] == s[0..m];
    }
  }

  /** Every prefix fits exactly when the stream is robust. */
  lemma PrefixesFitIffRobust(s: bytes, maximum: nat)
    ensures (forall m {:trigger s[..m]} :: 0 <= m <= |s| ==> Fits(s[..m], maximum)) <==> Robust(s, maximum)
  {
    if Robust(s, maximum) {
      forall m {:trigger s[..m]} | 0 <= m <= |s| ensures Fits(s[..m], maximum) {
        RobustStreamFits(s, m, maximum);
      }
    }
    if forall m {:trigger s[..m]} :: 0 <= m <= |s| ==> Fits(s[..m], maximum) {
      var first := NextStart(s, 0);
      if first == |s| {
        assert s[..|s|] == s;
        assert Pieces(s)[0] == s;
      } else {
        forall m {:trigger s[..m]} | first + 1 <= m <= |s| ensures Within(Cut(s[..m], 0, first + 1), maximum) {
          FirstUnitOfPrefix(s, m, maximum);
        }
        FittingPrefixesAreRobust(s, 0, first + 1, maximum);
      }
    }
  }

  /** Every way of chunking a stream is accepted exactly when the stream is robust. */
  lemma EveryChunkingAcceptedIffRobust(s: bytes, maximum: nat)
    ensures (forall chunks :: Flatten(chunks) == s ==> Accepted(chunks, maximum)) <==> Robust(s, maximum)
  {
    PrefixesFitIffRobust(s, maximum);
    if Robust(s, maximum) {
      forall chunks | Flatten(chunks) == s ensures Accepted(chunks, maximum) {
        forall k {:trigger chunks[..k]} | 0 <= k <= |chunks| ensures Fits(Flatten(chunks[..k]), maximum) {
          FlattenPrefix(chunks, k);
          var t := Flatten(chunks[..k]);
          assert t == s[..|t|];
        }
      }
    }
    if forall chunks :: Flatten(chunks) == s ==> Accepted(chunks, maximum) {
      forall m {:trigger s[..m]} | 0 <= m <= |s| ensures Fits(s[..m], maximum) {
        var chunks := [s[..m], s[m..]];
        var one := [s[..m]];
        assert chunks[..1] == one && |one[..0]| == 0;
        assert Flatten([s[..m]]) == s[..m];
        assert Flatten(chunks) == s[..m] + s[m..] == s;
        assert Accepted(chunks, maximum);
        assert Fits(Flatten(chunks[..1]), maximum);
      }
    }
  }

  /** One shot acceptance with a margin of one overlap on the non-final units suffices. */
  lemma MarginSuffices(s: bytes, maximum: nat)
    requires Fits(s, maximum) && maximum >= OVERLAP
    requires forall i :: 0 <= i < |Pieces(s)| - 1 ==> |Pieces(s)[i]| <= maximum - OVERLAP
    ensures Robust(s, maximum)
  {
    var first := NextStart(s, 0);
    assert Pieces(s)[|Pieces(s)| - 1] in Pieces(s);
    if first < |s| { MarginSufficesFrom(s, 0, first + 1, maximum); }
  }

  lemma {:induction false} MarginSufficesFrom(s: bytes, base: nat, i: nat, maximum: nat)
    requires base <= i <= |s| && maximum >= OVERLAP
    requires var units := Cut(s, base, i);
             Within(units, maximum) && forall k :: 0 <= k < |units| - 1 ==> |units[k]| <= maximum - OVERLAP
    ensures RobustFrom(s, base, i, maximum)
    decreases |s| - i
  {
    var n := NextStart(s, i);
    var units := Cut(s, base, i);
    if n == |s| {
      assert units[0] == s[base..];
    } else {
      assert units[0] == s[base..n];
      assert units[1..] == Cut(s, n, n + 1);
      forall k | 0 <= k < |units[1..]|
        ensures |units[1..][k]| <= maximum && (k < |units[1..]| - 1 ==> |units[1..][k]| <= maximum - OVERLAP)
      {
        assert units[1..][k] == units[k + 1];
      }
      MarginSufficesFrom(s, n, n + 1, maximum);
    }
  }

  /** Acceptance in one shot does not carry over to every chunking: an incomplete delimiter
      counts against the bound, so some chunking of this stream is refused. */
  lemma OneShotIsNotEnough()
    ensures var s: bytes := [0, 0, 1, 9, 0, 0, 1, 9];
            Accepted([s], 4) && exists chunks :: Flatten(chunks) == s && !Accepted(chunks, 4)
  {
    var s: bytes := [0, 0, 1, 9, 0, 0, 1, 9];
    NextStartIs(s, 0, 0);
    NextStartIs(s, 1, 4);
    NextStartIs(s, 5, 8);
    TwoUnits(s, 0, 4, 4);
    SingleChunk(s, 4);
    EveryChunkingAcceptedIffRobust(s, 4);
  }

  lemma TwoUnits(s: bytes, first: nat, second: nat, maximum: nat)
    requires first < second < |s| && NextStart(s, 0) == first && NextStart(s, first + 1) == second
    requires NextStart(s, second + 1) == |s|
    ensures Fits(s, maximum) <==> second <= maximum && |s| - second <= maximum
    ensures Robust(s, maximum) ==> second + 3 <= maximum
  {
    var units := Pieces(s);
    assert units == Cut(s, 0, first + 1) == [s[0..second]] + Cut(s, second, second + 1);
    assert Cut(s, second, second + 1) == [s[second..]];
    assert units[0] == s[0..second] && units[1] == s[second..];
  }

  lemma SingleChunk(s: bytes, maximum: nat)
    ensures Flatten([s]) == s
    ensures Fits(s, maximum) ==> Accepted([s], maximum)
  {
    var chunks, none: bytes := [s], [];
    assert Pieces(none) == [[]];
    assert |chunks[..0]| == 0 && chunks[..1] == chunks;
    assert Flatten(chunks[..0]) == [];
  }

  /** Whatever a chunked run accepts, a single feed accepts. */
  lemma OneShotIsEasiest(chunks: seq<bytes>, maximum: nat)
    requires Accepted(chunks, maximum)
    ensures Accepted([Flatten(chunks)], maximum)
  {
    assert chunks[..|chunks|] == chunks;
    SingleChunk(Flatten(chunks), maximum);
  }
}
