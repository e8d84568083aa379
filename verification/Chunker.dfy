/** Overlapping chunks of a note's text for retrieval. */
module Chunker {
  import opened Base

  /** What `str.strip` removes. */
  predicate IsSpace(c: char) {
    || '\t' <= c <= '\r' || '\U{1c}' <= c <= ' ' || c == '\U{85}' || c == '\U{a0}' || c == '\U{1680}'
    || '\U{2000}' <= c <= '\U{200a}' || c == '\U{2028}' || c == '\U{2029}' || c == '\U{202f}' || c == '\U{205f}'
    || c == '\U{3000}'
  }

  /** By code point: tab to carriage return, the four separators and the blank, and the spaces beyond ASCII. */
  lemma SpacesAre(c: char)
    ensures var n := c as int;
            IsSpace(c) <==> 9 <= n <= 13 || 28 <= n <= 32 || 8192 <= n <= 8202
                            || n in {133, 160, 5760, 8232, 8233, 8239, 8287, 12288}
  {
  }

  /** The number of leading spaces. */
  function LeadingSpaces(s: string): (n: nat)
    ensures n <= |s|
    ensures forall i :: 0 <= i < n ==> IsSpace(s[i])
    ensures n < |s| ==> !IsSpace(s[n])
  {
    if s == [] || !IsSpace(s[0]) then 0 else 1 + LeadingSpaces(s[1..])
  }

  /** The length of `s` without its trailing spaces. */
  function TrimmedLength(s: string): (n: nat)
    ensures n <= |s|
    ensures forall i :: n <= i < |s| ==> IsSpace(s[i])
    ensures n > 0 ==> !IsSpace(s[n - 1])
  {
    if s == [] || !IsSpace(s[|s| - 1]) then |s| else TrimmedLength(s[..|s| - 1])
  }

  function Strip(s: string): string {
    var from := LeadingSpaces(s);
    var upto := TrimmedLength(s);
    if from < upto then s[from..upto] else []
  }

  /** `text.rfind(c, lo, hi)`. */
  function RFind(text: string, c: char, lo: nat, hi: nat): (i: int)
    requires hi <= |text|
    ensures i == -1 || (lo <= i < hi && text[i] == c)
    ensures forall j :: lo <= j < hi && j > i ==> text[j] != c
  {
    if hi <= lo then -1
    else if text[hi - 1] == c then hi - 1
    else RFind(text, c, lo, hi - 1)
  }

  datatype Window = Window(start: nat, end: nat)

  /** Where a window ends: at the text's end, else at the last newline or space of its second half, else at its limit. */
  function WindowEnd(text: string, start: nat, maxChars: nat): (end: nat)
    requires 2 <= maxChars && start <= |text|
    ensures start <= end <= |text| && end <= start + maxChars
    ensures start < |text| ==> start < end
    ensures end < |text| ==> start + maxChars / 2 <= end
  {
    var limit := Min(|text|, start + maxChars);
    if limit < |text| then
      var boundary := Max(RFind(text, '\n', start + maxChars / 2, limit), RFind(text, ' ', start + maxChars / 2, limit));
      if boundary > start then boundary else limit
    else limit
  }

  /**
   * A window that could reach the text's end does; any other stops at the last newline or space of its second half, if
   * there is one, else at its limit.
   */
  lemma WindowEndsAtLastBreak(text: string, start: nat, maxChars: nat, i: nat)
    requires 2 <= maxChars && start <= |text|
    ensures var end := WindowEnd(text, start, maxChars);
            if |text| <= start + maxChars then end == |text|
            else
              && start + maxChars / 2 <= end <= start + maxChars && (end < start + maxChars ==> IsBreak(text[end]))
              && (start + maxChars / 2 <= i < start + maxChars && IsBreak(text[i]) ==> i <= end < start + maxChars)
  {
  }

  predicate IsBreak(c: char) {
    c == '\n' || c == ' '
  }

  datatype Chunk = Chunk(ordinal: nat, text: string)

  datatype Settings = Settings(maxChars: int, overlap: int)

  predicate ValidSettings(s: Settings) {
    s.maxChars >= 32 && 0 <= s.overlap < s.maxChars
  }

  /** Successive windows: each ends where the rule says and the next starts `overlap` before that end, at least one further. */
  ghost predicate Sliding(text: string, s: Settings, ws: seq<Window>)
    requires ValidSettings(s)
  {
    && (forall i :: 0 <= i < |ws| ==> IsWindow(text, s, ws[i]))
    && (forall i :: 0 <= i < |ws| - 1 ==> Follows(text, s, ws[i], ws[i + 1].start))
  }

  ghost predicate IsWindow(text: string, s: Settings, w: Window)
    requires ValidSettings(s)
  {
    w.start <= |text| && w.end == WindowEnd(text, w.start, s.maxChars)
  }

  /** `start` is where the window after `w` begins. */
  ghost predicate Follows(text: string, s: Settings, w: Window, start: nat) {
    w.end < |text| && start == Max(w.start + 1, w.end - s.overlap)
  }

  /** The windows of a whole text. */
  ghost predicate Windows(text: string, s: Settings, ws: seq<Window>)
    requires ValidSettings(s)
  {
    ws != [] && ws[0].start == 0 && Sliding(text, s, ws) && ws[|ws| - 1].end == |text|
  }

  ghost predicate IsChunk(text: string, w: Window, ordinal: nat, chunk: Chunk) {
    w.start <= w.end <= |text| && chunk == Chunk(ordinal, Strip(text[w.start..w.end]))
  }

  /** One chunk per window, numbered from 0. */
  ghost predicate ChunksOf(text: string, ws: seq<Window>, chunks: seq<Chunk>) {
    |chunks| == |ws| && forall i :: 0 <= i < |ws| ==> IsChunk(text, ws[i], i, chunks[i])
  }

  /** The loop's state: the next window starts at `start`. */
  ghost predicate Continues(text: string, s: Settings, ws: seq<Window>, start: nat)
    requires ValidSettings(s)
  {
    if ws == [] then start == 0 else ws[0].start == 0 && Follows(text, s, ws[|ws| - 1], start)
  }

  lemma SlidingExtends(text: string, s: Settings, ws: seq<Window>, w: Window)
    requires ValidSettings(s) && Sliding(text, s, ws) && Continues(text, s, ws, w.start) && IsWindow(text, s, w)
    ensures Sliding(text, s, ws + [w]) && (ws + [w])[0].start == 0
  {
  }

  lemma ChunksExtend(text: string, ws: seq<Window>, chunks: seq<Chunk>, w: Window, chunk: Chunk)
    requires ChunksOf(text, ws, chunks) && IsChunk(text, w, |ws|, chunk)
    ensures ChunksOf(text, ws + [w], chunks + [chunk])
  {
  }

  method CutWindow(text: string, start: nat, maxChars: nat) returns (end: nat)
    requires 2 <= maxChars && start <= |text|
    ensures end == WindowEnd(text, start, maxChars)
  {
    end := Min(|text|, start + maxChars);
    if end < |text| {
      var boundary := Max(RFind(text, '\n', start + maxChars / 2, end), RFind(text, ' ', start + maxChars / 2, end));
      if boundary > start {
        end := boundary;
      }
    }
  }

  /** The windows cut so far, their chunks, and the start of the next window. */
  ghost predicate Cut(text: string, s: Settings, ws: seq<Window>, chunks: seq<Chunk>, start: nat)
    requires ValidSettings(s)
  {
    start <= |text| && Sliding(text, s, ws) && Continues(text, s, ws, start) && ChunksOf(text, ws, chunks)
  }

  /** One turn of the loop: the window at `start` becomes the next chunk, and `start` moves on unless the text is used up. */
  method AppendChunk(text: string, s: Settings, ghost ws: seq<Window>, chunks: seq<Chunk>, start: nat)
    returns (ghost windows: seq<Window>, more: seq<Chunk>, next: nat, done: bool)
    requires ValidSettings(s) && Cut(text, s, ws, chunks, start)
    ensures |more| == |chunks| + 1
    ensures done ==> Windows(text, s, windows) && ChunksOf(text, windows, more)
    ensures !done ==> Cut(text, s, windows, more, next) && start < next < |text|
  {
    var end := CutWindow(text, start, s.maxChars);
    ghost var w := Window(start, end);
    SlidingExtends(text, s, ws, w);
    var chunk := Chunk(|chunks|, Strip(text[start..end]));
    ChunksExtend(text, ws, chunks, w, chunk);
    more := chunks + [chunk];
    windows := ws + [w];
    done := end >= |text|;
    next := if done then start else Max(start + 1, end - s.overlap);
  }

  /** `deterministic_chunks` on the prepared text; `windows` are the slices its chunks were stripped from. */
  method DeterministicChunks(text: string, s: Settings) returns (ok: bool, chunks: seq<Chunk>, ghost windows: seq<Window>)
    ensures ok <==> ValidSettings(s)
    ensures ok ==> Windows(text, s, windows) && ChunksOf(text, windows, chunks)
  {
    ok, chunks, windows := s.maxChars >= 32 && s.overlap >= 0 && s.overlap < s.maxChars, [], [];
    if !ok {
      return;
    }
    var start := 0;
    while start < |text| || (chunks == [] && start == 0)
      invariant Cut(text, s, windows, chunks, start)
      invariant chunks != [] ==> start < |text|
      decreases |text| - start, |chunks| == 0
    {
      var done;
      windows, chunks, start, done := AppendChunk(text, s, windows, chunks, start);
      if done {
        break;
      }
    }
  }

  // ---------------------------------------------------------------------------------------------
  // What chunking guarantees

  /** Starts strictly increase, no gap opens between neighbours, and no window is longer than the limit. */
  lemma WindowsOverlap(text: string, s: Settings, ws: seq<Window>, i: nat)
    requires ValidSettings(s) && Sliding(text, s, ws) && i < |ws|
    ensures ws[i].end - ws[i].start <= s.maxChars && ws[i].end <= |text|
    ensures i + 1 < |ws| ==> ws[i].start < ws[i + 1].start <= ws[i].end && ws[i].end < |text|
    ensures i + 1 < |ws| ==> ws[i + 1].start - ws[i].start >= s.maxChars / 2 - s.overlap
  {
  }

  /** Every position of the text lies in some window. */
  lemma {:induction false} PositionCovered(text: string, s: Settings, ws: seq<Window>, x: nat, n: nat) returns (i: nat)
    requires ValidSettings(s) && Sliding(text, s, ws) && ws != [] && ws[0].start == 0
    requires 0 < n <= |ws| && x < ws[n - 1].end
    ensures i < |ws| && ws[i].start <= x < ws[i].end
  {
    if ws[n - 1].start <= x {
      i := n - 1;
    } else {
      WindowsOverlap(text, s, ws, n - 2);
      i := PositionCovered(text, s, ws, x, n - 1);
    }
  }

  lemma StripKeeps(s: string, x: nat)
    requires x < |s| && !IsSpace(s[x])
    ensures LeadingSpaces(s) <= x < TrimmedLength(s)
    ensures |Strip(s)| == TrimmedLength(s) - LeadingSpaces(s) && Strip(s)[x - LeadingSpaces(s)] == s[x]
  {
  }

  lemma StripNoLonger(s: string)
    ensures |Strip(s)| <= |s|
  {
  }

  lemma StripTrims(s: string)
    ensures Strip(s) != [] ==> !IsSpace(Strip(s)[0]) && !IsSpace(Strip(s)[|Strip(s)| - 1])
    ensures Strip(s) != [] ==> LeadingSpaces(s) + |Strip(s)| <= |s|
                               && Strip(s) == s[LeadingSpaces(s)..LeadingSpaces(s) + |Strip(s)|]
  {
  }

  /** `t` is the piece of the window that begins at `from`, and neither begins nor ends with white space. */
  ghost predicate PieceAt(text: string, w: Window, t: string, from: nat) {
    && w.start <= from && from + |t| <= w.end <= |text| && t != [] && t == text[from..from + |t|]
    && !IsSpace(t[0]) && !IsSpace(t[|t| - 1])
  }

  lemma SliceOfSlice(text: string, a: nat, b: nat, from: nat, n: nat)
    requires a <= b <= |text| && from + n <= b - a
    ensures text[a..b][from..from + n] == text[a + from..a + from + n]
  {
    var slice := text[a..b];
    var whole := text[a + from..a + from + n];
    assert |slice[from..from + n]| == |whole|;
    forall x | 0 <= x < n
      ensures slice[from..from + n][x] == whole[x]
    {
      assert slice[from + x] == text[a + from + x];
    }
  }

  lemma PieceOfSlice(text: string, w: Window, t: string, lead: nat)
    requires w.start <= w.end <= |text| && lead + |t| <= w.end - w.start && t != []
    requires t == text[w.start..w.end][lead..lead + |t|] && !IsSpace(t[0]) && !IsSpace(t[|t| - 1])
    ensures PieceAt(text, w, t, w.start + lead)
  {
    hide IsSpace;
    SliceOfSlice(text, w.start, w.end, lead, |t|);
  }

  lemma StripIsAPiece(text: string, w: Window) returns (from: nat)
    requires w.start <= w.end <= |text| && Strip(text[w.start..w.end]) != []
    ensures PieceAt(text, w, Strip(text[w.start..w.end]), from)
  {
    hide Strip, PieceAt, IsSpace, LeadingSpaces, TrimmedLength;
    var slice := text[w.start..w.end];
    var t, lead := Strip(slice), LeadingSpaces(slice);
    StripTrims(slice);
    PieceOfSlice(text, w, t, lead);
    from := w.start + lead;
  }

  /** A chunk is a trimmed piece of its window, or empty. */
  lemma ChunksAreTrimmed(text: string, s: Settings, ws: seq<Window>, chunks: seq<Chunk>, i: nat)
    requires ValidSettings(s) && Windows(text, s, ws) && ChunksOf(text, ws, chunks) && i < |chunks|
    ensures chunks[i].text == [] || exists from :: PieceAt(text, ws[i], chunks[i].text, from)
  {
    assert IsChunk(text, ws[i], i, chunks[i]);
    hide Strip, PieceAt;
    if chunks[i].text != [] {
      var from := StripIsAPiece(text, ws[i]);
    }
  }

  /** Ordinals count from 0 and no chunk exceeds the limit. */
  lemma ChunksBounded(text: string, s: Settings, ws: seq<Window>, chunks: seq<Chunk>, i: nat)
    requires ValidSettings(s) && Windows(text, s, ws) && ChunksOf(text, ws, chunks) && i < |chunks|
    ensures chunks[i].ordinal == i && |chunks[i].text| <= s.maxChars
  {
    WindowsOverlap(text, s, ws, i);
    assert IsChunk(text, ws[i], i, chunks[i]);
    StripNoLonger(text[ws[i].start..ws[i].end]);
  }

  /** The chunk of a window shows the text's character at `x` where that stands behind the spaces its slice begins with. */
  ghost predicate Shows(text: string, w: Window, chunk: Chunk, x: nat)
    requires w.start <= x < w.end <= |text|
  {
    var offset := x - w.start - LeadingSpaces(text[w.start..w.end]);
    0 <= offset < |chunk.text| && chunk.text[offset] == text[x]
  }

  lemma SliceShows(text: string, w: Window, ordinal: nat, chunk: Chunk, x: nat)
    requires IsChunk(text, w, ordinal, chunk) && w.start <= x < w.end && !IsSpace(text[x])
    ensures Shows(text, w, chunk, x)
  {
    var slice := text[w.start..w.end];
    assert slice[x - w.start] == text[x];
    hide Strip, LeadingSpaces, TrimmedLength, IsSpace;
    StripKeeps(slice, x - w.start);
  }

  /** Every character of the text that is not white space is shown by some chunk, in its own place. */
  lemma ChunksCover(text: string, s: Settings, ws: seq<Window>, chunks: seq<Chunk>, x: nat)
    requires ValidSettings(s) && Windows(text, s, ws) && ChunksOf(text, ws, chunks)
    requires x < |text| && !IsSpace(text[x])
    ensures exists i :: 0 <= i < |chunks| && ws[i].start <= x < ws[i].end <= |text| && Shows(text, ws[i], chunks[i], x)
  {
    var i := PositionCovered(text, s, ws, x, |ws|);
    assert IsChunk(text, ws[i], i, chunks[i]);
    SliceShows(text, ws[i], i, chunks[i], x);
  }

  /** With an overlap below half a chunk, a start lies at least `step` per window from the beginning. */
  lemma {:induction false} StartsAdvance(text: string, s: Settings, ws: seq<Window>, i: nat)
    requires ValidSettings(s) && Sliding(text, s, ws) && ws != [] && i < |ws|
    requires s.overlap < s.maxChars / 2
    ensures ws[i].start >= ws[0].start + i * (s.maxChars / 2 - s.overlap)
  {
    if i > 0 {
      hide Sliding;
      StartsAdvance(text, s, ws, i - 1);
      WindowsOverlap(text, s, ws, i - 1);
      OneMoreStep(i, s.maxChars / 2 - s.overlap);
    }
  }

  lemma OneMoreStep(i: nat, step: int)
    requires i > 0
    ensures i * step == (i - 1) * step + step
  {
  }

  /** The number of chunks is bounded: one, and one more for each `maxChars / 2 - overlap` characters of the text. */
  lemma ChunkCountBounded(text: string, s: Settings, ws: seq<Window>)
    requires ValidSettings(s) && Windows(text, s, ws) && s.overlap < s.maxChars / 2
    ensures (|ws| - 1) * (s.maxChars / 2 - s.overlap) <= |text|
  {
    StartsAdvance(text, s, ws, |ws| - 1);
  }

  /** With any valid overlap, a text has at most one chunk per character, and one when it is empty. */
  lemma ChunkCountLinear(text: string, s: Settings, ws: seq<Window>)
    requires ValidSettings(s) && Windows(text, s, ws)
    ensures |ws| <= Max(1, |text|)
  {
    StartsRise(text, s, ws, |ws| - 1);
    if |ws| > 1 {
      WindowsOverlap(text, s, ws, |ws| - 2);
    }
  }

  lemma {:induction false} StartsRise(text: string, s: Settings, ws: seq<Window>, i: nat)
    requires ValidSettings(s) && Sliding(text, s, ws) && i < |ws|
    ensures ws[i].start >= i
  {
    if i > 0 { StartsRise(text, s, ws, i - 1); }
  }
}
