/** The overlapping-window chunker shared by the indexer
    (src/indexer.py) and the index manager (src/index_manager.py). */
module Chunker {
  import opened Text

  /** The window size and overlap both ingestion paths use. */
  const ChunkSize: nat := 800
  const Overlap: nat := 120

  /** The half-open character range `[start, end)` of a page. */
  datatype Window = Window(start: nat, end: nat)

  /** A stored chunk: the window it came from and its stripped text. */
  datatype Chunk = Chunk(start: nat, end: nat, text: string)

  /** Where the next window starts once the window `[j, k)` of a text of
      length `n` is done: the end of the text after the last window,
      otherwise `overlap` (at most half a window) back from `k`, unless that
      would not move forward. */
  function NextStart(j: nat, k: nat, n: nat, size: nat, overlap: nat): (r: nat)
    requires size > 0 && j < n && k == Min(j + size, n)
    ensures j < r <= n
    ensures r <= k && r >= k - Min(overlap, size / 2)
  {
    if k >= n then n
    else
      var back := Min(overlap, size / 2);
      if k - back > j then k - back else k
  }

  /** The windows the chunking loop visits, from position `j` on. */
  function WindowsFrom(n: nat, j: nat, size: nat, overlap: nat): seq<Window>
    requires size > 0 && j <= n
    decreases n - j
  {
    if j == n then []
    else
      var k := Min(j + size, n);
      [Window(j, k)] + WindowsFrom(n, NextStart(j, k, n, size, overlap), size, overlap)
  }

  function Windows(n: nat, size: nat, overlap: nat): seq<Window>
    requires size > 0
  {
    WindowsFrom(n, 0, size, overlap)
  }

  predicate InText(w: Window, n: nat) {
    w.start <= w.end <= n
  }

  predicate AllInText(ws: seq<Window>, n: nat) {
    forall i :: 0 <= i < |ws| ==> InText(ws[i], n)
  }

  /** What one window contributes: its stripped text, or nothing when that
      is empty. */
  function Emit(text: string, w: Window): seq<Chunk>
    requires InText(w, |text|)
  {
    var piece := Strip(text[w.start..w.end]);
    if piece != [] then [Chunk(w.start, w.end, piece)] else []
  }

  /** The chunks a sequence of windows yields, in window order. */
  function ChunksOf(text: string, ws: seq<Window>): seq<Chunk>
    requires AllInText(ws, |text|)
  {
    if ws == [] then []
    else
      assert InText(ws[0], |text|);
      Emit(text, ws[0]) + ChunksOf(text, ws[1..])
  }

  lemma {:induction false} WindowsInText(n: nat, j: nat, size: nat, overlap: nat)
    requires size > 0 && j <= n
    ensures AllInText(WindowsFrom(n, j, size, overlap), n)
    decreases n - j
  {
    if j < n {
      var k := Min(j + size, n);
      WindowsInText(n, NextStart(j, k, n, size, overlap), size, overlap);
    }
  }

  function Chunks(text: string, size: nat, overlap: nat): seq<Chunk>
    requires size > 0
  {
    WindowsInText(|text|, 0, size, overlap);
    ChunksOf(text, Windows(|text|, size, overlap))
  }

  /** One turn of the chunking loop: the window at `j`, then the windows
      from the next start. */
  lemma ChunksStep(text: string, j: nat, size: nat, overlap: nat)
    requires size > 0 && j < |text|
    ensures var k := Min(j + size, |text|);
      var next := NextStart(j, k, |text|, size, overlap);
      AllInText(WindowsFrom(|text|, next, size, overlap), |text|) &&
      ChunksOf(text, WindowsFrom(|text|, j, size, overlap))
        == Emit(text, Window(j, k)) + ChunksOf(text, WindowsFrom(|text|, next, size, overlap))
  {
    var n := |text|;
    var k := Min(j + size, n);
    var next := NextStart(j, k, n, size, overlap);
    WindowsInText(n, j, size, overlap);
    WindowsInText(n, next, size, overlap);
    var ws := WindowsFrom(n, j, size, overlap);
    assert ws[1..] == WindowsFrom(n, next, size, overlap);
  }

  /** One turn of the chunking loop: keep the stripped window `[j, k)` when
      it is not empty, then move to the next start. */
  method ChunkWindow(text: string, j: nat, size: nat, overlap: nat, chunks: seq<Chunk>)
    returns (chunks': seq<Chunk>, j': nat)
    requires size > 0 && j < |text|
    ensures var k := Min(j + size, |text|);
      chunks' == chunks + Emit(text, Window(j, k)) && j' == NextStart(j, k, |text|, size, overlap)
  {
    var n := |text|;
    var k: nat := Min(j + size, n);
    var piece := Strip(text[j..k]);
    chunks' := chunks;
    if piece != [] {
      chunks' := chunks + [Chunk(j, k, piece)];
    }
    if k >= n {
      j' := n;
    } else {
      var back := Min(overlap, size / 2);
      var nextJ := k - back;
      if nextJ > j {
        j' := nextJ;
      } else {
        j' := k;
      }
    }
  }

  /** The chunking loop of src/indexer.py, lifted out of the file loop. */
  method ChunkPage(text: string, size: nat, overlap: nat) returns (chunks: seq<Chunk>)
    requires size > 0
    ensures chunks == Chunks(text, size, overlap)
  {
    var n := |text|;
    var j := 0;
    chunks := [];
    WindowsInText(n, 0, size, overlap);
    ghost var goal := Chunks(text, size, overlap);
    while j < n
      invariant j <= n
      invariant AllInText(WindowsFrom(n, j, size, overlap), n)
      invariant goal == chunks + ChunksOf(text, WindowsFrom(n, j, size, overlap))
      decreases n - j
    {
      ChunksStep(text, j, size, overlap);
      ghost var emitted := Emit(text, Window(j, Min(j + size, n)));
      ghost var rest := ChunksOf(text, WindowsFrom(n, NextStart(j, Min(j + size, n), n, size, overlap), size, overlap));
      assert goal == (chunks + emitted) + rest;
      chunks, j := ChunkWindow(text, j, size, overlap, chunks);
    }
  }

  /** The windows run from the start of the text to its end: none when the
      text is empty, otherwise the first starts at `j` and the last ends at
      the end of the text. */
  lemma {:induction false} WindowsSpan(n: nat, j: nat, size: nat, overlap: nat)
    requires size > 0 && j <= n
    ensures var ws := WindowsFrom(n, j, size, overlap);
      (j < n <==> |ws| > 0) && (|ws| > 0 ==> ws[0].start == j && ws[|ws| - 1].end == n)
    decreases n - j
  {
    if j < n {
      var k := Min(j + size, n);
      WindowsSpan(n, NextStart(j, k, n, size, overlap), size, overlap);
    }
  }

  /** Each window is a full window of `size` characters, cut short only by
      the end of the text. */
  lemma {:induction false} WindowsFull(n: nat, j: nat, size: nat, overlap: nat)
    requires size > 0 && j <= n
    ensures forall w :: w in WindowsFrom(n, j, size, overlap) ==> w.start < w.end && w.end == Min(w.start + size, n)
    decreases n - j
  {
    if j < n {
      var k := Min(j + size, n);
      var next := NextStart(j, k, n, size, overlap);
      var rest := WindowsFrom(n, next, size, overlap);
      WindowsFull(n, next, size, overlap);
      var ws := WindowsFrom(n, j, size, overlap);
      assert ws == [Window(j, k)] + rest;

    }
  }

  /** Each next window starts strictly after the previous one starts and no
      later than it ends, so there is no gap and the loop always advances;
      consecutive windows share at most `overlap` characters and at most half
      a window. */
  predicate Advancing(ws: seq<Window>, size: nat, overlap: nat) {
    forall i :: 0 <= i < |ws| - 1 ==>
      ws[i].start < ws[i + 1].start <= ws[i].end &&
      ws[i].end - ws[i + 1].start <= Min(overlap, size / 2)
  }

  lemma {:induction false} WindowsAdvance(n: nat, j: nat, size: nat, overlap: nat)
    requires size > 0 && j <= n
    ensures Advancing(WindowsFrom(n, j, size, overlap), size, overlap)
    decreases n - j
  {
    if j < n {
      var k := Min(j + size, n);
      var next := NextStart(j, k, n, size, overlap);
      var rest := WindowsFrom(n, next, size, overlap);
      WindowsAdvance(n, next, size, overlap);
      WindowsSpan(n, next, size, overlap);
      var ws := WindowsFrom(n, j, size, overlap);
      assert ws == [Window(j, k)] + rest;
      forall i | 0 <= i < |ws| - 1
        ensures ws[i].start < ws[i + 1].start <= ws[i].end
        ensures ws[i].end - ws[i + 1].start <= Min(overlap, size / 2)
      {
        if i == 0 {
          assert ws[1] == rest[0];
        } else {
          assert ws[i] == rest[i - 1] && ws[i + 1] == rest[i];
        }
      }
    }
  }

  /** `c` is the stripped, non-empty text of one of the windows `ws`. */
  predicate FromWindow(text: string, ws: seq<Window>, c: Chunk) {
    InText(Window(c.start, c.end), |text|) && Window(c.start, c.end) in ws &&
    c.text == Strip(text[c.start..c.end]) && c.text != []
  }

  /** Every chunk is the stripped, non-empty text of one of the windows. */
  lemma {:induction false} ChunksFromWindows(text: string, ws: seq<Window>)
    requires AllInText(ws, |text|)
    ensures forall i :: 0 <= i < |ChunksOf(text, ws)| ==> FromWindow(text, ws, ChunksOf(text, ws)[i])
  {
    if ws != [] {
      var rest := ws[1..];
      ChunksFromWindows(text, rest);
      assert InText(ws[0], |text|);
      var e := Emit(text, ws[0]);
      var tail := ChunksOf(text, rest);
      assert ChunksOf(text, ws) == e + tail;
      forall i | 0 <= i < |e + tail| ensures FromWindow(text, ws, (e + tail)[i]) {
        if i >= |e| {
          var c := tail[i - |e|];
          assert FromWindow(text, rest, c);
          assert Window(c.start, c.end) in ws;
        }
      }
    }
  }

  predicate IncreasingStarts(cs: seq<Chunk>) {
    forall i, j :: 0 <= i < j < |cs| ==> cs[i].start < cs[j].start
  }

  /** When window starts strictly increase, so do chunk starts, and no chunk
      starts before the first window. */
  lemma {:induction false} ChunkStartsIncrease(text: string, ws: seq<Window>)
    requires AllInText(ws, |text|)
    requires forall i :: 0 <= i < |ws| - 1 ==> ws[i].start < ws[i + 1].start
    ensures IncreasingStarts(ChunksOf(text, ws))
    ensures |ws| > 0 ==> forall c :: c in ChunksOf(text, ws) ==> ws[0].start <= c.start
  {
    if ws != [] {
      var rest := ws[1..];
      ChunkStartsIncrease(text, rest);
      assert InText(ws[0], |text|);
      var e := Emit(text, ws[0]);
      var tail := ChunksOf(text, rest);
      assert ChunksOf(text, ws) == e + tail;
      if |rest| > 0 {
        assert ws[0].start < rest[0].start;
      }
      assert forall c :: c in tail ==> ws[0].start < c.start;
      var cs := e + tail;
      forall i, j | 0 <= i < j < |cs| ensures cs[i].start < cs[j].start {
        if i >= |e| {
          assert cs[i] == tail[i - |e|] && cs[j] == tail[j - |e|];
        } else {
          assert cs[j] == tail[j - |e|];
          assert cs[j] in tail;
        }
      }
    }
  }

  /** What the chunking loop promises for a whole page: every chunk is the
      stripped, non-empty text of a window of at most `size` characters,
      and chunk starts strictly increase. */
  lemma PageChunks(text: string, size: nat, overlap: nat)
    requires size > 0
    ensures var cs := Chunks(text, size, overlap);
      IncreasingStarts(cs) &&
      forall c :: c in cs ==> FromWindow(text, Windows(|text|, size, overlap), c) &&
                              c.end == Min(c.start + size, |text|)
  {
    var ws := Windows(|text|, size, overlap);
    WindowsInText(|text|, 0, size, overlap);
    WindowsAdvance(|text|, 0, size, overlap);
    WindowsFull(|text|, 0, size, overlap);
    ChunksFromWindows(text, ws);
    ChunkStartsIncrease(text, ws);
    var cs := Chunks(text, size, overlap);
    forall c | c in cs ensures FromWindow(text, ws, c) && c.end == Min(c.start + size, |text|) {
      var i :| 0 <= i < |cs| && cs[i] == c;
      assert FromWindow(text, ws, cs[i]);
      assert Window(c.start, c.end) in ws;
    }
  }

  /** A page of only whitespace yields no chunk. */
  lemma {:induction false} BlankYieldsNothing(text: string, ws: seq<Window>)
    requires AllSpace(text)
    requires AllInText(ws, |text|)
    ensures ChunksOf(text, ws) == []
  {
    if ws != [] {
      var piece := text[ws[0].start..ws[0].end];
      assert AllSpace(piece) by {
        forall i | 0 <= i < |piece| ensures IsSpace(piece[i]) {
          assert piece[i] == text[ws[0].start + i];
        }
      }
      StripIsTrimmedSlice(piece);
      BlankYieldsNothing(text, ws[1..]);
    }
  }

  /** A 2000-character page with the production settings is read as the
      windows [0, 800), [680, 1480) and [1360, 2000). */
  lemma ProductionWindows()
    ensures Windows(2000, ChunkSize, Overlap) == [Window(0, 800), Window(680, 1480), Window(1360, 2000)]
  {
    assert NextStart(0, 800, 2000, 800, 120) == 680;
    assert NextStart(680, 1480, 2000, 800, 120) == 1360;
    assert NextStart(1360, 2000, 2000, 800, 120) == 2000;
    assert WindowsFrom(2000, 2000, 800, 120) == [];
    assert WindowsFrom(2000, 1360, 800, 120) == [Window(1360, 2000)];
    assert WindowsFrom(2000, 680, 800, 120) == [Window(680, 1480), Window(1360, 2000)];
  }
}
