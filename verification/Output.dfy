/**
 Bounded output (packages/chord/src/output.ts): a window of whole lines at the head or the tail of a stream, and a buffer
 that keeps it up to date chunk by chunk.

 Text is its UTF-8 bytes (section 3 of RFC 3629).
 */
module Outputs {

  type Byte = b: int | 0 <= b < 256

  const NEWLINE: Byte := 10

  datatype Limits = Limits(maxBytes: nat, maxLines: nat, head: bool)

  // Text

  predicate Continues(b: Byte) {
    128 <= b < 192
  }

  /** Bytes of the character a lead byte starts; 0 for no lead byte. */
  function Width(b: Byte): (n: nat)
    ensures n <= 4
  {
    if b < 128 then 1 else if b < 194 then 0 else if b < 224 then 2 else if b < 240 then 3 else if b < 245 then 4 else 0
  }

  predicate IsText(s: seq<Byte>) {
    s == [] ||
    var n := Width(s[0]);
    0 < n <= |s| && (forall i :: 1 <= i < n ==> Continues(s[i])) && IsText(s[n..])
  }

  /** What the character scans of output.ts stop at. */
  predicate Boundary(s: seq<Byte>, p: int) {
    p == 0 || p == |s| || (0 < p < |s| && !Continues(s[p]))
  }

  function Newlines(s: seq<Byte>): (n: nat) {
    if s == [] then 0 else Newlines(s[..|s| - 1]) + if s[|s| - 1] == NEWLINE then 1 else 0
  }

  predicate Ended(s: seq<Byte>) {
    s == [] || s[|s| - 1] == NEWLINE
  }

  /** A final line without a newline counts. */
  function Lines(s: seq<Byte>): (n: nat) {
    Newlines(s) + if Ended(s) then 0 else 1
  }

  // Windows

  predicate Small(s: seq<Byte>, limits: Limits) {
    |s| <= limits.maxBytes && Lines(s) <= limits.maxLines
  }

  /** `s[..p]` is a non-empty run of whole lines within the limits. */
  predicate HeadLines(s: seq<Byte>, limits: Limits, p: int) {
    0 < p <= |s| && (p == |s| || s[p - 1] == NEWLINE) && Small(s[..p], limits)
  }

  predicate TailLines(s: seq<Byte>, limits: Limits, p: int) {
    0 <= p < |s| && (p == 0 || s[p - 1] == NEWLINE) && Small(s[p..], limits)
  }

  /** The most whole lines that fit, or the most characters of a first line that does not. */
  ghost predicate HeadWindow(s: seq<Byte>, limits: Limits, p: int) {
    if limits.maxLines == 0 || limits.maxBytes == 0 || s == [] then p == 0
    else if exists q :: HeadLines(s, limits, q) then HeadLines(s, limits, p) && forall q :: HeadLines(s, limits, q) ==> q <= p
    else 0 <= p <= limits.maxBytes < |s| && Boundary(s, p) && forall q :: p < q <= limits.maxBytes ==> !Boundary(s, q)
  }

  ghost predicate TailWindow(s: seq<Byte>, limits: Limits, p: int) {
    if limits.maxLines == 0 || limits.maxBytes == 0 || s == [] then p == |s|
    else if exists q :: TailLines(s, limits, q) then TailLines(s, limits, p) && forall q :: TailLines(s, limits, q) ==> p <= q
    else
      && limits.maxBytes < |s| && |s| - limits.maxBytes <= p <= |s| && Boundary(s, p)
      && forall q :: |s| - limits.maxBytes <= q < p ==> !Boundary(s, q)
  }

  datatype Slice = Slice(text: seq<Byte>, droppedBytes: int, droppedLines: int)

  /** What `boundOutput` promises of its result. */
  ghost predicate Bounded(s: seq<Byte>, limits: Limits, r: Slice) {
    && (if limits.head then exists p :: 0 <= p <= |s| && HeadWindow(s, limits, p) && r.text == s[..p]
        else exists p :: 0 <= p <= |s| && TailWindow(s, limits, p) && r.text == s[p..])
    && r.droppedBytes == |s| - |r.text| && r.droppedLines == Lines(s) - Lines(r.text)
  }

  // Counting

  lemma {:induction false} NewlinesConcat(a: seq<Byte>, b: seq<Byte>)
    ensures Newlines(a + b) == Newlines(a) + Newlines(b)
  {
    if b == [] {
      assert a + b == a;
    } else {
      assert (a + b)[..|a + b| - 1] == a + b[..|b| - 1];
      NewlinesConcat(a, b[..|b| - 1]);
    }
  }

  lemma NewlinesSplit(s: seq<Byte>, p: nat)
    requires p <= |s|
    ensures Newlines(s) == Newlines(s[..p]) + Newlines(s[p..])
  {
    assert s == s[..p] + s[p..];
    NewlinesConcat(s[..p], s[p..]);
  }

  /** Counting newlines from either side, one at a time. */
  lemma NewlinesStep(s: seq<Byte>, p: nat)
    requires p < |s|
    ensures Newlines(s[..p + 1]) == Newlines(s[..p]) + if s[p] == NEWLINE then 1 else 0
    ensures Newlines(s[p..]) == Newlines(s[p + 1..]) + if s[p] == NEWLINE then 1 else 0
  {
    assert s[..p + 1][..p] == s[..p];
    assert s[p..] == [s[p]] + s[p + 1..];
    NewlinesConcat([s[p]], s[p + 1..]);
    assert [s[p]][..0] == [];
  }

  lemma {:induction false} NoNewlines(s: seq<Byte>, from: nat, to: nat)
    requires from <= to <= |s| && forall i :: from <= i < to ==> s[i] != NEWLINE
    ensures Newlines(s[from..to]) == 0
  {
    if from < to {
      NoNewlines(s, from, to - 1);
      assert s[from..to][..to - from - 1] == s[from..to - 1];
    }
  }

  /** A longer suffix has no fewer newlines, a longer prefix neither. */
  lemma NewlinesMonotone(s: seq<Byte>, p: nat, q: nat)
    requires p <= q <= |s|
    ensures Newlines(s[..p]) <= Newlines(s[..q]) && Newlines(s[q..]) <= Newlines(s[p..])
  {
    assert s[..q][..p] == s[..p];
    NewlinesSplit(s[..q], p);
    assert s[p..][q - p..] == s[q..];
    NewlinesSplit(s[p..], q - p);
  }

  // A window does not depend on what is far from it

  /** More than a tail window by a byte or a line. */
  predicate Margin(s: seq<Byte>, limits: Limits) {
    |s| > limits.maxBytes || Newlines(s) > limits.maxLines
  }

  lemma MarginTail(pre: seq<Byte>, s: seq<Byte>, limits: Limits, p: int)
    requires Margin(s, limits)
    ensures TailLines(pre + s, limits, |pre| + p) <==> TailLines(s, limits, p)
  {
    var all := pre + s;
    if 0 < p < |s| {
      assert all[|pre| + p..] == s[p..];
    } else if -|pre| <= p <= 0 < |s| {
      NewlinesMonotone(all, |pre| + p, |pre|);
      assert all[|pre|..] == s;
    }
  }

  lemma {:induction false} LastLine(s: seq<Byte>, limits: Limits)
    requires Newlines(s) > limits.maxLines > 0 && |s| <= limits.maxBytes
    ensures exists q :: TailLines(s, limits, q)
  {
    assert s[0..] == s;
    var q := |s| - 1;
    NewlinesStep(s, q);
    while q > 0 && s[q - 1] != NEWLINE
      invariant 0 <= q < |s| && Newlines(s[q..]) == if s[|s| - 1] == NEWLINE then 1 else 0
    {
      q := q - 1;
      NewlinesStep(s, q);
    }
    assert TailLines(s, limits, q);
  }

  /** The tail-margin lemma: before a suffix longer than the window there is nothing the window could reach. */
  lemma TailMargin(pre: seq<Byte>, s: seq<Byte>, limits: Limits, p: nat)
    requires Margin(s, limits) && p <= |s| && TailWindow(s, limits, p)
    ensures TailWindow(pre + s, limits, |pre| + p)
  {
    var all := pre + s;
    forall q
      ensures TailLines(all, limits, q) <==> TailLines(s, limits, q - |pre|)
    {
      MarginTail(pre, s, limits, q - |pre|);
    }
    if exists q :: TailLines(s, limits, q) {
      MarginTail(pre, s, limits, p);
    } else if limits.maxLines > 0 && limits.maxBytes > 0 && |s| > 0 {
      if |s| <= limits.maxBytes {
        LastLine(s, limits);
      }
      assert forall q :: |pre| < q <= |all| ==> (Boundary(all, q) <==> Boundary(s, q - |pre|));
    }
  }

  /** What a full head buffer holds. */
  predicate Filled(s: seq<Byte>, limits: Limits) {
    |s| > limits.maxBytes || Newlines(s) >= limits.maxLines
  }

  lemma FilledHead(s: seq<Byte>, post: seq<Byte>, limits: Limits, p: int)
    requires Filled(s, limits)
    ensures HeadLines(s + post, limits, p) <==> HeadLines(s, limits, p)
  {
    var all := s + post;
    if 0 < p <= |s| {
      assert all[..p] == s[..p];
      assert s[..|s|] == s;
    } else if |s| < p <= |all| {
      NewlinesMonotone(all, |s|, p - 1);
      NewlinesStep(all, p - 1);
      assert all[..|s|] == s;
    }
  }

  lemma {:induction false} FirstLine(s: seq<Byte>, limits: Limits)
    requires Newlines(s) > 0 && |s| <= limits.maxBytes && limits.maxLines > 0
    ensures exists q :: HeadLines(s, limits, q)
  {
    assert s[..|s|] == s;
    var q := 0;
    while s[q] != NEWLINE
      invariant 0 <= q < |s| && Newlines(s[..q]) == 0
      decreases |s| - q
    {
      NewlinesStep(s, q);
      q := q + 1;
      if q == |s| {
        assert false;
      }
    }
    NewlinesStep(s, q);
    assert HeadLines(s, limits, q + 1);
  }

  /** After a full head buffer nothing changes the window. */
  lemma HeadFilled(s: seq<Byte>, post: seq<Byte>, limits: Limits, p: nat)
    requires Filled(s, limits) && HeadWindow(s, limits, p) && s != []
    ensures HeadWindow(s + post, limits, p)
  {
    var all := s + post;
    forall q
      ensures HeadLines(all, limits, q) <==> HeadLines(s, limits, q)
    {
      FilledHead(s, post, limits, q);
    }
    if !(exists q :: HeadLines(s, limits, q)) && limits.maxLines > 0 && limits.maxBytes > 0 {
      if |s| <= limits.maxBytes {
        FirstLine(s, limits);
      }
      assert forall q :: 0 <= q <= limits.maxBytes ==> (Boundary(all, q) <==> Boundary(s, q));
    }
  }

  /** The window, and so what `boundOutput` returns, is determined by the text. */
  lemma OneWindow(s: seq<Byte>, limits: Limits, a: Slice, b: Slice)
    requires Bounded(s, limits, a) && Bounded(s, limits, b)
    ensures a == b
  {
  }

  // The range functions

  /** The next newline at or after `from`, or -1. */
  method IndexOf(s: seq<Byte>, from: nat) returns (k: int)
    requires from <= |s|
    ensures k == -1 || (from <= k < |s| && s[k] == NEWLINE)
    ensures forall j :: from <= j < (if k == -1 then |s| else k) ==> s[j] != NEWLINE
    ensures Newlines(s[from..if k == -1 then |s| else k]) == 0
  {
    hide Newlines;
    k := from;
    while k < |s| && s[k] != NEWLINE
      invariant from <= k <= |s| && forall j :: from <= j < k ==> s[j] != NEWLINE
    {
      k := k + 1;
    }
    NoNewlines(s, from, k);
    if k == |s| {
      k := -1;
    }
  }

  /** The last newline at or before `from`, or -1. */
  method LastIndexOf(s: seq<Byte>, from: int) returns (k: int)
    requires -1 <= from < |s|
    ensures k == -1 || (0 <= k <= from && s[k] == NEWLINE)
    ensures forall j :: k < j <= from ==> s[j] != NEWLINE
    ensures Newlines(s[k + 1..from + 1]) == 0
  {
    hide Newlines;
    k := from;
    while k >= 0 && s[k] != NEWLINE
      invariant -1 <= k <= from && forall j :: k < j <= from ==> s[j] != NEWLINE
    {
      k := k - 1;
    }
    NoNewlines(s, k + 1, from + 1);
  }

  method CharacterEnd(s: seq<Byte>, index: nat) returns (end: nat)
    requires index <= |s|
    ensures end <= index && (end == 0 || end == |s| || !Continues(s[end]))
    ensures forall q :: end < q <= index && q < |s| ==> Continues(s[q])
  {
    end := index;
    while end > 0 && end < |s| && Continues(s[end])
      invariant end <= index && forall q :: end < q <= index && q < |s| ==> Continues(s[q])
    {
      end := end - 1;
    }
  }

  method CharacterStart(s: seq<Byte>, index: nat) returns (start: nat)
    requires index <= |s|
    ensures index <= start <= |s| && (start == |s| || !Continues(s[start]))
    ensures forall q :: index <= q < start ==> Continues(s[q])
  {
    start := index;
    while start < |s| && Continues(s[start])
      invariant index <= start <= |s| && forall q :: index <= q < start ==> Continues(s[q])
    {
      start := start + 1;
    }
  }

  /** The end of the first `n` lines, or of the text. */
  ghost predicate LinesEnd(s: seq<Byte>, n: nat, end: nat) {
    && end <= |s| && Lines(s[..end]) <= n && (end == 0 ==> s == [])
    && (end < |s| ==> end > 0 && s[end - 1] == NEWLINE && Newlines(s[..end]) == n)
  }

  method EndOfLines(s: seq<Byte>, n: nat) returns (end: nat)
    requires n > 0
    ensures LinesEnd(s, n, end)
  {
    var lines := 0;
    var index := IndexOf(s, 0);
    end := |s|;
    assert s[0..|s|] == s[..|s|] == s;
    while index != -1
      invariant index == -1 || (0 <= index < |s| && s[index] == NEWLINE && Newlines(s[..index]) == lines)
      invariant index == -1 ==> Newlines(s) == lines
      invariant lines < n
      decreases if index == -1 then 0 else |s| - index
    {
      NewlinesStep(s, index);
      lines := lines + 1;
      if lines == n {
        return index + 1;
      }
      var next := IndexOf(s, index + 1);
      NewlinesBetween(s, index + 1, if next == -1 then |s| else next);
      index := next;
    }
  }

  lemma NewlinesBetween(s: seq<Byte>, p: nat, q: nat)
    requires p <= q <= |s|
    ensures Newlines(s[..q]) == Newlines(s[..p]) + Newlines(s[p..q])
    ensures Newlines(s[p..]) == Newlines(s[p..q]) + Newlines(s[q..])
    ensures s[..|s|] == s
  {
    hide Newlines;
    Slices(s, p, q);
    NewlinesSplit(s[..q], p);
    NewlinesSplit(s[p..], q - p);
  }

  lemma Slices(s: seq<Byte>, p: nat, q: nat)
    requires p <= q <= |s|
    ensures s[..|s|] == s && s[..q][..p] == s[..p] && s[..q][p..] == s[p..q]
    ensures s[p..][..q - p] == s[p..q] && s[p..][q - p..] == s[q..]
  {
  }

  /** Whole lines up to there are within the line limit, and no more are. */
  lemma LinesEndIsHead(s: seq<Byte>, limits: Limits, end: nat, q: int)
    requires LinesEnd(s, limits.maxLines, end)
    ensures HeadLines(s, limits, q) <==>
            0 < q <= end && q <= limits.maxBytes && (q == |s| || s[q - 1] == NEWLINE)
  {
    if 0 < q <= end && (q == |s| || s[q - 1] == NEWLINE) {
      NewlinesMonotone(s, q, end);
    } else if end < q <= |s| {
      NewlinesMonotone(s, end, q - 1);
      NewlinesStep(s, q - 1);
    }
  }

  method HeadRange(s: seq<Byte>, limits: Limits) returns (end: nat)
    ensures end <= |s| && HeadWindow(s, limits, end)
  {
    if limits.maxLines == 0 || limits.maxBytes == 0 {
      return 0;
    }
    end := EndOfLines(s, limits.maxLines);
    hide HeadWindow, LinesEnd, Newlines;
    if end > limits.maxBytes {
      var newline := LastIndexOf(s, limits.maxBytes - 1);
      if newline == -1 {
        var cut := CharacterEnd(s, limits.maxBytes);
        HeadCut(s, limits, end, cut);
        end := cut;
      } else {
        HeadStops(s, limits, end, newline + 1);
        end := newline + 1;
      }
    } else {
      HeadStops(s, limits, end, end);
    }
  }

  /** The last line end within the bytes is the window's. */
  lemma HeadStops(s: seq<Byte>, limits: Limits, end: nat, p: nat)
    requires LinesEnd(s, limits.maxLines, end) && limits.maxLines > 0 && limits.maxBytes > 0
    requires p <= end && p <= limits.maxBytes && if end <= limits.maxBytes then p == end else p > 0 && s[p - 1] == NEWLINE
    requires end > limits.maxBytes ==> forall j :: p <= j < limits.maxBytes ==> s[j] != NEWLINE
    ensures HeadWindow(s, limits, p)
  {
    forall q
      ensures HeadLines(s, limits, q) <==> 0 < q <= end && q <= limits.maxBytes && (q == |s| || s[q - 1] == NEWLINE)
    {
      LinesEndIsHead(s, limits, end, q);
    }
    hide HeadLines, Newlines;
    if s != [] {
      assert HeadLines(s, limits, p);
    }
  }

  /** Without one the first line is cut. */
  lemma HeadCut(s: seq<Byte>, limits: Limits, end: nat, cut: nat)
    requires LinesEnd(s, limits.maxLines, end) && limits.maxLines > 0 && 0 < limits.maxBytes < end
    requires forall j :: 0 <= j < limits.maxBytes ==> s[j] != NEWLINE
    requires cut <= limits.maxBytes && (cut == 0 || !Continues(s[cut]))
    requires forall q :: cut < q <= limits.maxBytes ==> Continues(s[q])
    ensures HeadWindow(s, limits, cut)
  {
    forall q
      ensures !HeadLines(s, limits, q)
    {
      LinesEndIsHead(s, limits, end, q);
    }
    hide HeadLines, Newlines;
  }

  /** The start of the last `n` lines, or of the text. */
  ghost predicate LinesStart(s: seq<Byte>, n: nat, start: nat) {
    && start <= |s| && Lines(s[start..]) <= n && (start == |s| ==> s == [])
    && (start > 0 ==> start < |s| && s[start - 1] == NEWLINE && Lines(s[start..]) == n)
  }

  lemma LinesStartIsTail(s: seq<Byte>, limits: Limits, start: nat, q: int)
    requires LinesStart(s, limits.maxLines, start)
    ensures TailLines(s, limits, q) <==>
            start <= q < |s| && |s| - q <= limits.maxBytes && (q == 0 || s[q - 1] == NEWLINE)
  {
    if start <= q < |s| && (q == 0 || s[q - 1] == NEWLINE) {
      NewlinesMonotone(s, start, q);
    } else if 0 <= q < start {
      NewlinesMonotone(s, q, start - 1);
      NewlinesStep(s, start - 1);
    }
  }

  /** One line further back, from the newline at `index` to the one before it. */
  lemma LineBefore(s: seq<Byte>, next: int, index: nat)
    requires -1 <= next < index < |s| - 1 && s[index] == NEWLINE && Newlines(s[next + 1..index]) == 0
    ensures Lines(s[next + 1..]) == Lines(s[index + 1..]) + 1
  {
    NewlinesBetween(s, next + 1, index);
    NewlinesStep(s, index);
  }

  method StartOfLines(s: seq<Byte>, n: nat) returns (start: nat)
    requires n > 0
    ensures LinesStart(s, n, start)
  {
    start := 0;
    if s == [] {
      return;
    }
    hide Newlines, Lines, LinesStart;
    // A trailing newline ends the last line rather than starting another.
    var last := if s[|s| - 1] == NEWLINE then |s| - 2 else |s| - 1;
    var lines := 1;
    var index := LastIndexOf(s, last);
    OneLine(s, index, last);
    while index != -1
      invariant -1 <= index < |s| - 1
      invariant index != -1 ==> s[index] == NEWLINE
      invariant Lines(s[index + 1..]) == lines <= n
      decreases index
    {
      if lines == n {
        StartsAfter(s, n, index);
        return index + 1;
      }
      lines := lines + 1;
      var next := LastIndexOf(s, index - 1);
      LineBefore(s, next, index);
      index := next;
    }
    StartsAfter(s, n, -1);
  }

  /** The last line, its own newline aside. */
  lemma OneLine(s: seq<Byte>, index: int, last: int)
    requires s != [] && last == (if s[|s| - 1] == NEWLINE then |s| - 2 else |s| - 1) && -1 <= index <= last
    requires index == -1 || s[index] == NEWLINE
    requires Newlines(s[index + 1..last + 1]) == 0
    ensures index < |s| - 1 && Lines(s[index + 1..]) == 1
  {
    assert s[|s|..] == [];
    hide Newlines;
    NewlinesBetween(s, index + 1, last + 1);
    NewlinesStep(s, |s| - 1);
    EmptyLines();
  }

  lemma EmptyLines()
    ensures Newlines([]) == 0
  {
  }

  lemma StartsAfter(s: seq<Byte>, n: nat, index: int)
    requires -1 <= index < |s| - 1 && (index != -1 ==> s[index] == NEWLINE)
    requires if index == -1 then Lines(s[0..]) <= n else Lines(s[index + 1..]) == n
    ensures LinesStart(s, n, index + 1)
  {
  }

  method TailRange(s: seq<Byte>, limits: Limits) returns (start: nat)
    ensures start <= |s| && TailWindow(s, limits, start)
  {
    if limits.maxLines == 0 || limits.maxBytes == 0 {
      return |s|;
    }
    start := StartOfLines(s, limits.maxLines);
    hide TailWindow, LinesStart, Newlines;
    if |s| - start > limits.maxBytes {
      var from := |s| - limits.maxBytes;
      var newline := IndexOf(s, from - 1);
      if newline != -1 && newline + 1 < |s| {
        TailStarts(s, limits, start, newline + 1);
        start := newline + 1;
      } else {
        var cut := CharacterStart(s, from);
        TailCut(s, limits, start, cut);
        start := cut;
      }
    } else {
      TailStarts(s, limits, start, start);
    }
  }

  /** The first line start within the bytes is the window's. */
  lemma TailStarts(s: seq<Byte>, limits: Limits, start: nat, p: nat)
    requires LinesStart(s, limits.maxLines, start) && limits.maxLines > 0 && limits.maxBytes > 0
    requires start <= p <= |s| && |s| - p <= limits.maxBytes
    requires if |s| - start <= limits.maxBytes then p == start else 0 < p < |s| && s[p - 1] == NEWLINE
    requires |s| - start > limits.maxBytes ==> forall j :: |s| - limits.maxBytes - 1 <= j < p - 1 ==> s[j] != NEWLINE
    ensures TailWindow(s, limits, p)
  {
    forall q
      ensures TailLines(s, limits, q) <==> start <= q < |s| && |s| - q <= limits.maxBytes && (q == 0 || s[q - 1] == NEWLINE)
    {
      LinesStartIsTail(s, limits, start, q);
    }
    hide TailLines, Newlines;
    if s != [] {
      assert TailLines(s, limits, p);
    }
  }

  /** Without one the last line is cut. */
  lemma TailCut(s: seq<Byte>, limits: Limits, start: nat, cut: nat)
    requires LinesStart(s, limits.maxLines, start) && limits.maxLines > 0 && 0 < limits.maxBytes < |s| - start
    requires forall j :: |s| - limits.maxBytes - 1 <= j < |s| - 1 ==> s[j] != NEWLINE
    requires |s| - limits.maxBytes <= cut <= |s| && (cut == |s| || !Continues(s[cut]))
    requires forall q :: |s| - limits.maxBytes <= q < cut ==> Continues(s[q])
    ensures TailWindow(s, limits, cut)
  {
    forall q
      ensures !TailLines(s, limits, q)
    {
      LinesStartIsTail(s, limits, start, q);
    }
    hide TailLines, Newlines;
  }

  method BoundOutput(s: seq<Byte>, limits: Limits) returns (r: Slice)
    ensures Bounded(s, limits, r)
  {
    var from, to := 0, |s|;
    if limits.head {
      to := HeadRange(s, limits);
    } else {
      from := TailRange(s, limits);
    }
    var kept := s[from..to];
    var all: int := LineCount(s);
    var left: int := LineCount(kept);
    assert s[..to] == s[0..to] && s[from..] == s[from..|s|];
    return Slice(kept, |s| - |kept|, all - left);
  }

  method LineCount(s: seq<Byte>) returns (n: nat)
    ensures n == Lines(s)
  {
    if |s| == 0 {
      return 0;
    }
    n := CountNewlines(s);
    return n + if s[|s| - 1] == NEWLINE then 0 else 1;
  }

  method CountNewlines(s: seq<Byte>) returns (n: nat)
    ensures n == Newlines(s)
  {
    hide Newlines;
    n := 0;
    var index := IndexOf(s, 0);
    NewlinesBetween(s, 0, if index == -1 then |s| else index);
    NoNewlines(s, 0, 0);
    assert s[..0] == s[0..0];
    while index != -1
      invariant index == -1 || (0 <= index < |s| && s[index] == NEWLINE && Newlines(s[..index]) == n)
      invariant index == -1 ==> Newlines(s) == n
      decreases if index == -1 then 0 else |s| - index
    {
      n := n + 1;
      NewlinesStep(s, index);
      var next := IndexOf(s, index + 1);
      NewlinesBetween(s, index + 1, if next == -1 then |s| else next);
      index := next;
    }
  }

  // Characters

  lemma {:induction false} TextConcat(a: seq<Byte>, b: seq<Byte>)
    requires IsText(a) && IsText(b)
    ensures IsText(a + b)
  {
    if a == [] {
      assert a + b == b;
    } else {
      var n := Width(a[0]);
      assert (a + b)[n..] == a[n..] + b;
      TextConcat(a[n..], b);
    }
  }

  /** Cutting a text where the scans stop gives two texts. */
  lemma {:induction false} TextSplit(s: seq<Byte>, p: nat)
    requires IsText(s) && p <= |s| && Boundary(s, p)
    ensures IsText(s[..p]) && IsText(s[p..])
  {
    if p == 0 {
      assert s[p..] == s;
    } else {
      var n := Width(s[0]);
      assert p >= n;
      TextSplit(s[n..], p - n);
      Slices(s, n, p);
      assert s[..p][n..] == s[n..p];
      FirstCharacter(s, n, p);
    }
  }

  lemma FirstCharacter(s: seq<Byte>, n: nat, p: nat)
    requires s != [] && n == Width(s[0]) && 0 < n <= p <= |s| && (forall i :: 1 <= i < n ==> Continues(s[i]))
    requires IsText(s[..p][n..])
    ensures IsText(s[..p])
  {
  }

  /** A character has at most four bytes. */
  lemma {:induction false} LeadNear(s: seq<Byte>, i: nat)
    requires IsText(s) && i < |s|
    ensures exists j :: 0 <= j && i - 3 <= j <= i && !Continues(s[j])
  {
    var n := Width(s[0]);
    if i < n {
      assert !Continues(s[0]);
    } else {
      LeadNear(s[n..], i - n);
      var j :| 0 <= j && i - n - 3 <= j <= i - n && !Continues(s[n..][j]);
      assert !Continues(s[j + n]);
    }
  }

  lemma {:induction false} NewlineEnds(s: seq<Byte>, p: nat)
    requires IsText(s) && 0 < p <= |s| && s[p - 1] == NEWLINE
    ensures Boundary(s, p)
  {
    var n := Width(s[0]);
    if p <= n {
      assert p == 1 || Continues(s[p - 1]);
    }
    if p > n {
      assert s[n..][p - n - 1] == NEWLINE;
      NewlineEnds(s[n..], p - n);
    } else if p < |s| {
      assert n == 1 && IsText(s[1..]);
    }
  }

  /** The kept slice of a text is a text: it decodes exactly. */
  lemma WindowIsText(s: seq<Byte>, limits: Limits, r: Slice)
    requires IsText(s) && Bounded(s, limits, r)
    ensures IsText(r.text)
  {
    var p :| 0 <= p <= |s| && if limits.head then HeadWindow(s, limits, p) && r.text == s[..p] else TailWindow(s, limits, p) && r.text == s[p..];
    if 0 < p < |s| && s[p - 1] == NEWLINE {
      NewlineEnds(s, p);
    }
    TextSplit(s, p);
  }

  /** Where the shortest suffix longer than the window starts. */
  ghost predicate MarginStart(s: seq<Byte>, limits: Limits, start: nat) {
    && start <= |s| && Boundary(s, start) && (start == 0 || Margin(s[start..], limits))
    && forall q :: start < q <= |s| && Boundary(s, q) ==> !Margin(s[q..], limits)
  }

  method MarginOf(s: seq<Byte>, limits: Limits) returns (start: nat)
    requires IsText(s)
    ensures MarginStart(s, limits, start) && |s| - start <= limits.maxBytes + 4
  {
    var byteStart := 0;
    if |s| > limits.maxBytes {
      byteStart := CharacterEnd(s, |s| - limits.maxBytes - 1);
      LeadNear(s, |s| - limits.maxBytes - 1);
    }
    var lineStart := MarginLine(s, limits.maxLines);
    start := if byteStart > lineStart then byteStart else lineStart;
    forall q | start < q <= |s| && Boundary(s, q)
      ensures !Margin(s[q..], limits)
    {
      NewlinesMonotone(s, lineStart, q);
      assert Newlines(s[q..]) <= limits.maxLines;
    }
  }

  /** The newline that has `maxLines` newlines after it, or the start. */
  method MarginLine(s: seq<Byte>, maxLines: nat) returns (start: nat)
    ensures start <= |s| && Boundary(s, start) && (start > 0 ==> Newlines(s[start..]) > maxLines)
    ensures forall q :: start < q <= |s| ==> Newlines(s[q..]) <= maxLines
  {
    hide Newlines;
    start := 0;
    var newlines := 0;
    var index := LastIndexOf(s, |s| - 1);
    assert s[index + 1..] == s[index + 1..|s|];
    while index != -1
      invariant -1 <= index < |s| && (index != -1 ==> s[index] == NEWLINE)
      invariant newlines <= maxLines && Newlines(s[index + 1..]) == newlines
      decreases index
    {
      newlines := newlines + 1;
      NewlinesStep(s, index);
      if newlines > maxLines {
        start := index;
        break;
      }
      var next := LastIndexOf(s, index - 1);
      NewlinesBetween(s, next + 1, index);
      index := next;
    }
    forall q | start < q <= |s|
      ensures Newlines(s[q..]) <= maxLines
    {
      NewlinesMonotone(s, if index == -1 then 0 else index + 1, q);
    }
  }

  // The buffer

  datatype Chunk = Chunk(text: seq<Byte>, bytes: nat, newlines: nat)

  function Joined(chunks: seq<Chunk>): (s: seq<Byte>) {
    if chunks == [] then [] else chunks[0].text + Joined(chunks[1..])
  }

  lemma {:induction false} JoinedAppend(chunks: seq<Chunk>, c: Chunk)
    ensures Joined(chunks + [c]) == Joined(chunks) + c.text
  {
    if chunks == [] {
      assert chunks + [c] == [c] && [c][1..] == [];
    } else {
      assert (chunks + [c])[1..] == chunks[1..] + [c];
      JoinedAppend(chunks[1..], c);
      assert chunks[0].text + (Joined(chunks[1..]) + c.text) == chunks[0].text + Joined(chunks[1..]) + c.text;
    }
  }

  function Max(a: nat, b: nat): nat {
    if a > b then a else b
  }

  /** Counts of omitted output (`OutputSkip`). */
  datatype Skip = Skip(bytes: nat, newlines: nat, endsWithNewline: bool)
  {
    ghost predicate Measures(omitted: seq<Byte>) {
      IsText(omitted) && bytes == |omitted| && newlines == Newlines(omitted) && endsWithNewline == Ended(omitted)
    }
  }

  /** `t` is the end of `s`, and all of it or more than a window. */
  predicate TailOf(s: seq<Byte>, t: seq<Byte>, limits: Limits) {
    |t| <= |s| && s[|s| - |t|..] == t && (t == s || Margin(t, limits))
  }

  lemma TailGrows(s: seq<Byte>, t: seq<Byte>, text: seq<Byte>, limits: Limits)
    ensures TailOf(s, t, limits) ==> TailOf(s + text, t + text, limits)
    ensures Margin(text, limits) ==> TailOf(s + text, text, limits)
  {
    NewlinesConcat(t, text);
    hide Newlines;
    assert (s + text)[|s + text| - |text|..] == text;
    if TailOf(s, t, limits) {
      assert (s + text)[|s + text| - |t + text|..] == t + text;
    }
  }

  lemma TailShrinks(s: seq<Byte>, first: seq<Byte>, rest: seq<Byte>, limits: Limits)
    requires TailOf(s, first + rest, limits) && Margin(rest, limits)
    ensures TailOf(s, rest, limits)
  {
    hide Margin;
    assert s[|s| - |rest|..] == s[|s| - |first + rest|..][|first|..] == rest;
  }

  /** `t` is the start of `s`: all of it until the window is full. */
  predicate HeadOf(s: seq<Byte>, t: seq<Byte>, full: bool, limits: Limits) {
    if full then t != [] && t <= s && Filled(t, limits) else t == s && (s == [] || !Filled(s, limits))
  }

  lemma HeadFull(s: seq<Byte>, t: seq<Byte>, text: seq<Byte>, limits: Limits)
    requires HeadOf(s, t, true, limits)
    ensures HeadOf(s + text, t, true, limits)
  {
  }

  lemma HeadGrows(s: seq<Byte>, t: seq<Byte>, text: seq<Byte>, limits: Limits)
    requires HeadOf(s, t, false, limits) && text != []
    ensures HeadOf(s + text, t + text, Filled(t + text, limits), limits) && |t| <= limits.maxBytes
  {
  }

  /** The counters of the stored chunks count them; no chunk is larger than `room`. */
  predicate Kept(chunks: seq<Chunk>, bytes: int, newlines: int, room: nat) {
    && (forall c :: c in chunks ==> c.bytes == |c.text| <= room && c.newlines == Newlines(c.text) && IsText(c.text) && c.text != [])
    && bytes == |Joined(chunks)| && newlines == Newlines(Joined(chunks)) && IsText(Joined(chunks))
  }

  lemma KeptAppend(chunks: seq<Chunk>, bytes: int, newlines: int, room: nat, c: Chunk)
    requires Kept(chunks, bytes, newlines, room)
    requires IsText(c.text) && 0 < |c.text| <= room && c.bytes == |c.text| && c.newlines == Newlines(c.text)
    ensures Kept(chunks + [c], bytes + c.bytes, newlines + c.newlines, room)
    ensures Joined(chunks + [c]) == Joined(chunks) + c.text
  {
    JoinedAppend(chunks, c);
    NewlinesConcat(Joined(chunks), c.text);
    TextConcat(Joined(chunks), c.text);
  }

  lemma KeptRest(chunks: seq<Chunk>, bytes: int, newlines: int, room: nat)
    requires Kept(chunks, bytes, newlines, room) && chunks != []
    ensures Kept(chunks[1..], bytes - chunks[0].bytes, newlines - chunks[0].newlines, room)
    ensures Joined(chunks) == chunks[0].text + Joined(chunks[1..]) && 0 < chunks[0].bytes <= room
    ensures 0 <= bytes - chunks[0].bytes == |Joined(chunks[1..])|
    ensures 0 <= newlines - chunks[0].newlines == Newlines(Joined(chunks[1..]))
  {
    NewlinesConcat(chunks[0].text, Joined(chunks[1..]));
    JoinedIsText(chunks[1..]);
  }

  lemma KeptFew(chunks: seq<Chunk>, bytes: int, newlines: int, room: nat)
    requires Kept(chunks, bytes, newlines, room) && |chunks| <= 1
    ensures bytes <= room
  {
    if chunks != [] {
      KeptRest(chunks, bytes, newlines, room);
      assert chunks[1..] == [];
    }
  }

  lemma KeptJoined(chunks: seq<Chunk>, bytes: int, newlines: int, room: nat)
    requires Kept(chunks, bytes, newlines, room)
    ensures bytes == |Joined(chunks)| && newlines == Newlines(Joined(chunks)) && IsText(Joined(chunks))
  {
  }

  lemma KeptOne(text: seq<Byte>, newlines: nat, room: nat)
    requires IsText(text) && |text| <= room && newlines == Newlines(text)
    ensures var chunks := if text == [] then [] else [Chunk(text, |text|, newlines)];
            Kept(chunks, |text|, newlines, room) && Joined(chunks) == text
  {
    if text != [] {
      var c := Chunk(text, |text|, newlines);
      assert [c][1..] == [] && Joined([c]) == text + [] == text;
    }
  }

  lemma KeptNone(room: nat)
    ensures Kept([], 0, 0, room) && Joined([]) == []
  {
  }

  lemma KeptRoom(chunks: seq<Chunk>, bytes: int, newlines: int, room: nat, more: nat)
    requires Kept(chunks, bytes, newlines, room) && room <= more
    ensures Kept(chunks, bytes, newlines, more)
  {
  }

  /** The totals are those of the whole stream. */
  predicate Totals(stream: seq<Byte>, bytes: int, newlines: int, ended: bool) {
    bytes == |stream| && newlines == Newlines(stream) && ended == Ended(stream) && IsText(stream)
  }

  lemma TotalsAre(stream: seq<Byte>, bytes: int, newlines: int, ended: bool)
    requires Totals(stream, bytes, newlines, ended)
    ensures bytes == |stream| && newlines + (if ended then 0 else 1) == Lines(stream)
  {
  }

  /** What is stored has the window of the whole stream. */
  lemma SameWindow(stream: seq<Byte>, stored: seq<Byte>, full: bool, limits: Limits, kept: Slice)
    requires if limits.head then HeadOf(stream, stored, full, limits) else TailOf(stream, stored, limits)
    requires Bounded(stored, limits, kept)
    ensures Bounded(stream, limits, Slice(kept.text, |stream| - |kept.text|, Lines(stream) - Lines(kept.text)))
    ensures kept.droppedLines == Lines(stored) - Lines(kept.text)
  {
    hide Lines, HeadWindow, TailWindow, Newlines;
    if stored != stream {
      if limits.head {
        var p :| 0 <= p <= |stored| && HeadWindow(stored, limits, p) && kept.text == stored[..p];
        SameHead(stream, stored, limits, p);
      } else {
        var p :| 0 <= p <= |stored| && TailWindow(stored, limits, p) && kept.text == stored[p..];
        SameTail(stream, stored, limits, p);
      }
    }
  }

  lemma SameHead(stream: seq<Byte>, stored: seq<Byte>, limits: Limits, p: nat)
    requires stored != [] && stored <= stream && Filled(stored, limits) && p <= |stored| && HeadWindow(stored, limits, p)
    ensures HeadWindow(stream, limits, p) && stream[..p] == stored[..p]
  {
    hide HeadWindow, Filled;
    assert stream == stored + stream[|stored|..];
    HeadFilled(stored, stream[|stored|..], limits, p);
  }

  lemma SameTail(stream: seq<Byte>, stored: seq<Byte>, limits: Limits, p: nat)
    requires |stored| <= |stream| && stream[|stream| - |stored|..] == stored && Margin(stored, limits)
    requires p <= |stored| && TailWindow(stored, limits, p)
    ensures var q := |stream| - |stored| + p; TailWindow(stream, limits, q) && stream[q..] == stored[p..]
  {
    hide TailWindow, Margin;
    var pre := stream[..|stream| - |stored|];
    assert stream == pre + stored;
    TailMargin(pre, stored, limits, p);
  }

  /** The counters give the bytes and lines of the stream that the window of what is stored leaves out. */
  lemma Recounted(stream: seq<Byte>, stored: seq<Byte>, full: bool, limits: Limits, kept: Slice,
                  bytes: int, newlines: int, ended: bool, storedNewlines: int)
    requires if limits.head then HeadOf(stream, stored, full, limits) else TailOf(stream, stored, limits)
    requires Bounded(stored, limits, kept) && Totals(stream, bytes, newlines, ended) && storedNewlines == Newlines(stored)
    ensures var keptLines := storedNewlines + (if Ended(stored) then 0 else 1) - kept.droppedLines;
            Bounded(stream, limits, Slice(kept.text, bytes - |kept.text|, newlines + (if ended then 0 else 1) - keptLines))
  {
    assert Lines(stored) == Newlines(stored) + if Ended(stored) then 0 else 1;
    hide Bounded, HeadOf, TailOf, Newlines, Lines;
    SameWindow(stream, stored, full, limits, kept);
    TotalsAre(stream, bytes, newlines, ended);
  }

  lemma MarginKeeps(stream: seq<Byte>, stored: seq<Byte>, start: nat, limits: Limits)
    requires TailOf(stream, stored, limits) && MarginStart(stored, limits, start)
    ensures TailOf(stream, stored[start..], limits)
  {
    if start > 0 {
      assert stored == stored[..start] + stored[start..];
      TailShrinks(stream, stored[..start], stored[start..], limits);
    } else {
      assert stored[0..] == stored;
    }
  }

  method Join(chunks: seq<Chunk>) returns (r: seq<Byte>)
    ensures r == Joined(chunks)
  {
    r := [];
    for i := 0 to |chunks|
      invariant Joined(chunks) == r + Joined(chunks[i..])
    {
      assert chunks[i..][1..] == chunks[i + 1..];
      r := r + chunks[i].text;
    }
  }

  lemma TotalsAppend(stream: seq<Byte>, bytes: int, newlines: int, ended: bool, text: seq<Byte>)
    requires Totals(stream, bytes, newlines, ended) && IsText(text) && text != []
    ensures Totals(stream + text, bytes + |text|, newlines + Newlines(text), Ended(text))
  {
    NewlinesConcat(stream, text);
    TextConcat(stream, text);
  }

  class OutputBuffer {
    const limits: Limits
    var chunks: seq<Chunk>
    var storedBytes: nat
    var storedNewlines: nat
    var full: bool
    var totalBytes: nat
    var totalNewlines: nat
    var endsWithNewline: bool

    /** The whole stream so far, and its largest chunk. */
    ghost var stream: seq<Byte>
    ghost var largest: nat

    ghost function Room(): nat
      reads this
    {
      Max(largest, limits.maxBytes + 4)
    }

    /** Only tail retention drops chunks one by one. */
    ghost function ChunkRoom(): nat
      reads this
    {
      Room() + if limits.head then limits.maxBytes + 1 else 0
    }

    ghost predicate Counted()
      reads this
    {
      Kept(chunks, storedBytes, storedNewlines, ChunkRoom()) && Totals(stream, totalBytes, totalNewlines, endsWithNewline)
    }

    /** What is stored decides the window. */
    ghost predicate Covers()
      reads this
    {
      if limits.head then HeadOf(stream, Joined(chunks), full, limits) else !full && TailOf(stream, Joined(chunks), limits)
    }

    ghost predicate Valid()
      reads this
    {
      Counted() && Covers() && storedBytes <= limits.maxBytes + 1 + Room()
    }

    constructor (limits: Limits)
      ensures this.limits == limits && stream == [] && Valid()
    {
      this.limits := limits;
      chunks, storedBytes, storedNewlines, full := [], 0, 0, false;
      totalBytes, totalNewlines, endsWithNewline := 0, 0, true;
      stream, largest := [], 0;
    }

    /** `#accept`: counts a chunk, stores it if it may be in a window, drops what no later window needs. */
    method Accept(text: seq<Byte>) returns (accepted: bool)
      requires Valid() && IsText(text)
      modifies this
      ensures Valid() && stream == old(stream) + text && largest == Max(old(largest), |text|)
      ensures accepted == (text != [])
    {
      hide Newlines, IsText, Joined, TailOf, HeadOf, Kept, Totals;
      if |text| == 0 {
        assert stream + text == stream;
        return false;
      }
      ghost var before, stored := stream, Joined(chunks);
      Count(text);
      if full {
        HeadFull(before, stored, text, limits);
        return true;
      }
      Store(text);
      if limits.head {
        full := storedBytes > limits.maxBytes || storedNewlines >= limits.maxLines;
        HeadGrows(before, stored, text, limits);
        KeptJoined(chunks, storedBytes, storedNewlines, ChunkRoom());
      } else {
        TailGrows(before, stored, text, limits);
        Trim();
      }
      return true;
    }

    method Count(text: seq<Byte>)
      requires Counted() && IsText(text) && text != []
      modifies this`totalBytes, this`totalNewlines, this`endsWithNewline, this`stream, this`largest
      ensures Counted() && stream == old(stream) + text && largest == Max(old(largest), |text|)
    {
      hide Newlines, IsText, Kept, Totals;
      var newlines := CountNewlines(text);
      TotalsAppend(stream, totalBytes, totalNewlines, endsWithNewline, text);
      ghost var room := ChunkRoom();
      totalBytes, totalNewlines := totalBytes + |text|, totalNewlines + newlines;
      endsWithNewline := text[|text| - 1] == NEWLINE;
      stream, largest := stream + text, Max(largest, |text|);
      KeptRoom(chunks, storedBytes, storedNewlines, room, ChunkRoom());
    }

    method Store(text: seq<Byte>)
      requires Counted() && IsText(text) && text != [] && |text| <= Room()
      modifies this`chunks, this`storedBytes, this`storedNewlines
      ensures Counted() && Joined(chunks) == Joined(old(chunks)) + text && storedBytes == old(storedBytes) + |text|
    {
      hide Newlines, IsText, Joined, Kept, Totals;
      var newlines := CountNewlines(text);
      KeptAppend(chunks, storedBytes, storedNewlines, ChunkRoom(), Chunk(text, |text|, newlines));
      chunks := chunks + [Chunk(text, |text|, newlines)];
      storedBytes, storedNewlines := storedBytes + |text|, storedNewlines + newlines;
    }

    /** Drops leading chunks while the rest still holds more than a window by a byte or a line. */
    method Trim()
      requires Counted() && TailOf(stream, Joined(chunks), limits) && !limits.head
      modifies this`chunks, this`storedBytes, this`storedNewlines
      ensures Counted() && TailOf(stream, Joined(chunks), limits) && storedBytes <= limits.maxBytes + 1 + Room()
    {
      hide Newlines, IsText, Joined, Margin, TailOf, Kept, Totals;
      while |chunks| > 1
        invariant Counted() && TailOf(stream, Joined(chunks), limits)
        decreases |chunks|
      {
        var first := chunks[0];
        KeptRest(chunks, storedBytes, storedNewlines, ChunkRoom());
        var bytesAfter, newlinesAfter := storedBytes - first.bytes, storedNewlines - first.newlines;
        if bytesAfter <= limits.maxBytes + 1 && newlinesAfter <= limits.maxLines + 1 {
          return;
        }
        MarginAfter(Joined(chunks[1..]), limits);
        TailShrinks(stream, first.text, Joined(chunks[1..]), limits);
        chunks := chunks[1..];
        storedBytes, storedNewlines := bytesAfter, newlinesAfter;
      }
      KeptFew(chunks, storedBytes, storedNewlines, ChunkRoom());
    }

    /** Accepts a chunk after output the producer left out, which the chunk pushes out of the tail window. */
    method AcceptAfter(skipped: Skip, text: seq<Byte>, ghost omitted: seq<Byte>) returns (ok: bool)
      requires Valid() && IsText(text) && skipped.Measures(omitted) && Margin(text, limits)
      modifies this
      ensures Valid() && ok == !limits.head
      ensures stream == old(stream) + if ok then omitted + text else []
      ensures largest == if ok then Max(old(largest), |text|) else old(largest)
    {
      hide Newlines, IsText, Joined, TailOf, HeadOf, Margin, Kept, Totals, Skip.Measures;
      Concats(stream, omitted, text);
      MarginSome(text, limits);
      if limits.head {
        return false;
      }
      SkipOver(skipped, omitted);
      ghost var before, stored := stream, Joined(chunks);
      Count(text);
      Store(text);
      TailGrows(before, stored, text, limits);
      Trim();
      return true;
    }

    /** `#skip`: counts what was left out; nothing stored before it can be in the window later. */
    method SkipOver(skipped: Skip, ghost omitted: seq<Byte>)
      requires Counted() && skipped.Measures(omitted)
      modifies this`chunks, this`storedBytes, this`storedNewlines, this`totalBytes, this`totalNewlines, this`endsWithNewline, this`stream
      ensures Counted() && stream == old(stream) + omitted
      ensures if omitted == [] then chunks == old(chunks) else Joined(chunks) == []
    {
      hide Newlines, IsText, Joined, Kept, Totals;
      assert stream + [] == stream;
      if skipped.bytes != 0 {
        TotalsAppend(stream, totalBytes, totalNewlines, endsWithNewline, omitted);
        KeptNone(ChunkRoom());
        totalBytes, totalNewlines := totalBytes + skipped.bytes, totalNewlines + skipped.newlines;
        endsWithNewline := skipped.endsWithNewline;
        chunks, storedBytes, storedNewlines := [], 0, 0;
        stream := stream + omitted;
      }
    }

    /** The window of the whole stream, from what is stored; compacts it. */
    method Snapshot() returns (r: Slice)
      requires Valid()
      modifies this`chunks, this`storedBytes, this`storedNewlines
      ensures Valid() && Bounded(stream, limits, r)
    {
      hide Newlines, IsText, Joined, TailOf, HeadOf, Margin, Kept, Totals, Bounded, MarginStart;
      var stored := Join(chunks);
      var kept := BoundOutput(stored, limits);
      KeptJoined(chunks, storedBytes, storedNewlines, ChunkRoom());
      Recounted(stream, stored, full, limits, kept, totalBytes, totalNewlines, endsWithNewline, storedNewlines);
      var storedLines := storedNewlines + if Ended(stored) then 0 else 1;
      var keptLines := storedLines - kept.droppedLines;
      r := Slice(kept.text, totalBytes - |kept.text|, totalNewlines + (if endsWithNewline then 0 else 1) - keptLines);
      if !limits.head {
        var start := MarginOf(stored, limits);
        MarginKeeps(stream, stored, start, limits);
        TextSplit(stored, start);
        Compact(stored[start..]);
      } else if |chunks| > 1 {
        Compact(stored);
      }
    }

    method Compact(text: seq<Byte>)
      requires Counted() && IsText(text) && |text| <= ChunkRoom()
      modifies this`chunks, this`storedBytes, this`storedNewlines
      ensures Counted() && Joined(chunks) == text && storedBytes == |text|
    {
      hide Newlines, IsText, Joined, Kept, Totals;
      var newlines := CountNewlines(text);
      KeptOne(text, newlines, ChunkRoom());
      chunks := if text == [] then [] else [Chunk(text, |text|, newlines)];
      storedBytes, storedNewlines := |text|, newlines;
    }
  }

  lemma MarginSome(s: seq<Byte>, limits: Limits)
    requires Margin(s, limits)
    ensures s != []
  {
  }

  lemma Concats(a: seq<Byte>, b: seq<Byte>, c: seq<Byte>)
    ensures a + b + c == a + (b + c) && [] + c == c && a + [] == a
  {
  }

  lemma MarginAfter(s: seq<Byte>, limits: Limits)
    ensures |s| > limits.maxBytes + 1 || Newlines(s) > limits.maxLines + 1 ==> Margin(s, limits)
  {
  }

  lemma {:induction false} JoinedIsText(chunks: seq<Chunk>)
    requires forall c :: c in chunks ==> IsText(c.text)
    ensures IsText(Joined(chunks))
  {
    if chunks != [] {
      JoinedIsText(chunks[1..]);
      TextConcat(chunks[0].text, Joined(chunks[1..]));
    }
  }
}
