/**
 The overlapping sentence chunker of services/chunking.py. The text arrives already split
 into stripped pieces; empty pieces are skipped as the loop skips them.
*/
module Chunking {
  import opened Common
  import opened Text

  const MIN_CHUNK_SIZE := 100

  datatype Chunk = Chunk(index: int, content: string)

  /** The sentences from .. to of the document. */
  datatype Slice = Slice(from: nat, to: nat)

  /** The sentences of the document: the pieces that are not empty. */
  function Kept(pieces: seq<string>): seq<string>
    decreases |pieces|
  {
    if pieces == [] then [] else
    var last := |pieces| - 1;
    Kept(pieces[..last]) + if pieces[last] == "" then [] else [pieces[last]]
  }

  /** ' '.join(sentences) */
  function Join(sentences: seq<string>): string
    decreases |sentences|
  {
    if sentences == [] then ""
    else if |sentences| == 1 then sentences[0]
    else Join(sentences[..|sentences| - 1]) + " " + sentences[|sentences| - 1]
  }

  lemma KeptOne(piece: string)
    ensures Kept([piece]) == if piece == "" then [] else [piece]
  {
    assert [piece][..0] == [];
  }

  /** Pieces are kept or dropped one by one, in order. */
  lemma {:induction false} KeptAppend(a: seq<string>, b: seq<string>)
    ensures Kept(a + b) == Kept(a) + Kept(b)
    decreases |b|
  {
    if b == [] {
      assert a + b == a;
    } else {
      assert (a + b)[..|a + b| - 1] == a + b[..|b| - 1];
      KeptAppend(a, b[..|b| - 1]);
    }
  }

  lemma JoinOne(sentence: string)
    ensures Join([sentence]) == sentence && Join([]) == ""
  {
  }

  /** Joined sentences stand in order, with one space between any two. */
  lemma {:induction false} JoinAppend(a: seq<string>, b: seq<string>)
    requires a != [] && b != []
    ensures Join(a + b) == Join(a) + " " + Join(b)
    decreases |b|
  {
    var last := |b| - 1;
    assert (a + b)[..|a + b| - 1] == a + b[..last];
    if last == 0 {
      assert a + b[..0] == a;
    } else {
      JoinAppend(a, b[..last]);
      assert Join(a) + " " + Join(b[..last]) + " " + b[last] == Join(a) + " " + (Join(b[..last]) + " " + b[last]);
    }
  }

  /** The running length of the loop: each sentence of s[from..end] and one space. */
  function Length(s: seq<string>, from: nat, end: nat): nat
    requires end <= |s|
    decreases end
  {
    if from >= end then 0 else Length(s, from, end - 1) + |s[end - 1]| + 1
  }

  lemma {:induction false} LengthFront(s: seq<string>, from: nat, end: nat)
    requires from < end <= |s|
    ensures Length(s, from, end) == |s[from]| + 1 + Length(s, from + 1, end)
    decreases end
  {
    if from < end - 1 {
      LengthFront(s, from, end - 1);
    }
  }

  /** The running length of a part of s is that of the same sentences where they stand in s. */
  lemma {:induction false} LengthInPlace(s: seq<string>, from: nat, part: seq<string>, a: nat, b: nat,
                                         start: nat, end: nat)
    requires from + |part| <= |s| && part == s[from..from + |part|] && b <= |part|
    requires start == from + a && end == from + b
    ensures Length(part, a, b) == Length(s, start, end)
    decreases b
  {
    if a < b {
      LengthInPlace(s, from, part, a, b - 1, start, end - 1);
    }
  }

  lemma {:induction false} JoinLength(sentences: seq<string>)
    ensures sentences != [] ==> |Join(sentences)| == Length(sentences, 0, |sentences|) - 1
    decreases |sentences|
  {
    if |sentences| > 1 {
      var front := sentences[..|sentences| - 1];
      JoinLength(front);
      LengthInPlace(sentences, 0, front, 0, |front|, 0, |front|);
    } else if |sentences| == 1 {
      assert Length(sentences, 0, 0) == 0;
    }
  }

  /** The running length is one more than the length of the joined text. */
  lemma SuffixLength(s: seq<string>, from: nat, to: nat)
    requires from < to <= |s|
    ensures |Join(s[from..to])| == Length(s, from, to) - 1 == |s[from]| + Length(s, from + 1, to)
  {
    var part := s[from..to];
    LengthFront(s, from, to);
    JoinLength(part);
    LengthInPlace(s, from, part, 0, |part|, from, to);
  }

  // ---- what a chunking is -----------------------------------------------------

  /** Walking back from s while the sentences of kept[from..to] fit the overlap. */
  function WalkBack(kept: seq<string>, from: nat, to: nat, s: nat, overlap: int): (start: nat)
    requires from <= s <= to <= |kept|
    ensures from <= start <= s
    decreases s
  {
    if s > from && Length(kept, s, to) + |kept[s - 1]| <= overlap then WalkBack(kept, from, to, s - 1, overlap)
    else s
  }

  /** Where the overlap of kept[from..to] starts. */
  function TailStart(kept: seq<string>, from: nat, to: nat, overlap: int): (start: nat)
    requires from <= to <= |kept|
    ensures from <= start <= to
  {
    WalkBack(kept, from, to, to, overlap)
  }

  lemma {:induction false} LongerIsLonger(kept: seq<string>, t: nat, s: nat, to: nat)
    requires t <= s <= to <= |kept|
    ensures Length(kept, s, to) <= Length(kept, t, to)
    decreases s - t
  {
    if t < s {
      LengthFront(kept, t, to);
      LongerIsLonger(kept, t + 1, s, to);
    }
  }

  lemma {:induction false} WalkBackFits(kept: seq<string>, from: nat, to: nat, s: nat, overlap: int)
    requires from <= s <= to <= |kept|
    requires s < to ==> Length(kept, s, to) - 1 <= overlap
    ensures var start := WalkBack(kept, from, to, s, overlap);
            && (start < to ==> Length(kept, start, to) - 1 <= overlap)
            && (start > from ==> Length(kept, start, to) + |kept[start - 1]| > overlap)
    decreases s
  {
    if s > from && Length(kept, s, to) + |kept[s - 1]| <= overlap {
      LengthFront(kept, s - 1, to);
      WalkBackFits(kept, from, to, s - 1, overlap);
    }
  }

  /** The overlap fits, and with one sentence more it would not. */
  lemma TailStops(kept: seq<string>, from: nat, to: nat, overlap: int)
    requires from <= to <= |kept|
    ensures var start := TailStart(kept, from, to, overlap);
            && (start < to ==> |Join(kept[start..to])| <= overlap)
            && (start > from ==> |Join(kept[start - 1..to])| > overlap)
  {
    var start := TailStart(kept, from, to, overlap);
    WalkBackFits(kept, from, to, to, overlap);
    if start < to {
      SuffixLength(kept, start, to);
    }
    if start > from {
      SuffixLength(kept, start - 1, to);
    }
  }

  /** The overlap is the longest suffix of the slice whose joined length is at most `overlap`. */
  lemma TailIsLongest(kept: seq<string>, from: nat, to: nat, overlap: int, t: nat)
    requires from <= t < to <= |kept|
    ensures from <= TailStart(kept, from, to, overlap) <= to
    ensures |Join(kept[t..to])| <= overlap <==> TailStart(kept, from, to, overlap) <= t
  {
    var start := TailStart(kept, from, to, overlap);
    TailStops(kept, from, to, overlap);
    SuffixLength(kept, t, to);
    if start <= t {
      SuffixLength(kept, start, to);
      LongerIsLonger(kept, start, t, to);
    } else {
      SuffixLength(kept, start - 1, to);
      LongerIsLonger(kept, t, start - 1, to);
    }
  }

  /** The overlap of a slice can be read off its own sentences. */
  lemma {:induction false} WalkBackInPlace(kept: seq<string>, from: nat, to: nat, part: seq<string>, s: nat,
                                           overlap: int)
    requires from <= to <= |kept| && part == kept[from..to] && s <= |part|
    ensures WalkBack(kept, from, to, from + s, overlap) == from + WalkBack(part, 0, |part|, s, overlap)
    decreases s
  {
    LengthInPlace(kept, from, part, s, |part|, from + s, to);
    if s > 0 {
      WalkBackInPlace(kept, from, to, part, s - 1, overlap);
    }
  }

  lemma TailInPlace(kept: seq<string>, from: nat, to: nat, part: seq<string>, overlap: int)
    requires from <= to <= |kept| && part == kept[from..to]
    ensures TailStart(kept, from, to, overlap) == from + TailStart(part, 0, |part|, overlap)
  {
    WalkBackInPlace(kept, from, to, part, |part|, overlap);
  }

  /** Each sentence from base + 1 up to n still fits a slice that starts at `from`. */
  ghost predicate Fits(kept: seq<string>, from: nat, base: nat, n: nat, size: int)
    requires from <= base && n <= |kept|
    decreases n
  {
    n <= base + 1 || (Length(kept, from, n - 1) + |kept[n - 1]| <= size && Fits(kept, from, base, n - 1, size))
  }

  /** The sentence after the slice, if there is one, no longer fits. */
  ghost predicate Full(kept: seq<string>, from: nat, to: nat, size: int)
    requires from <= to <= |kept|
  {
    to < |kept| ==> Length(kept, from, to) + |kept[to]| > size
  }

  function EndOf(slices: seq<Slice>): nat {
    if slices == [] then 0 else slices[|slices| - 1].to
  }

  /** Where a slice after `slices` has to start: at the beginning, or with the overlap it is due. */
  ghost predicate Starts(kept: seq<string>, slices: seq<Slice>, from: nat, overlap: int)
    requires EndOf(slices) <= |kept|
  {
    if slices == [] then from == 0 else
    var last := slices[|slices| - 1];
    last.from <= last.to && from == TailStart(kept, last.from, last.to, overlap)
  }

  /** Each slice starts where it has to, takes something new, and is as long as it can be. */
  ghost predicate Sliced(kept: seq<string>, slices: seq<Slice>, size: int, overlap: int)
    decreases |slices|
  {
    slices == [] ||
    var (before, slice) := (slices[..|slices| - 1], slices[|slices| - 1]);
    && Sliced(kept, before, size, overlap)
    && slice.from <= EndOf(before) < slice.to <= |kept|
    && Starts(kept, before, slice.from, overlap)
    && Fits(kept, slice.from, EndOf(before), slice.to, size)
    && Full(kept, slice.from, slice.to, size)
  }

  ghost predicate IsChunking(kept: seq<string>, slices: seq<Slice>, size: int, overlap: int) {
    Sliced(kept, slices, size, overlap) && EndOf(slices) == |kept|
  }

  /** Chunk i is the space-join of slice i, and is numbered i. */
  ghost predicate Renders(chunks: seq<Chunk>, kept: seq<string>, slices: seq<Slice>)
    decreases |slices|
  {
    && |chunks| == |slices|
    && (slices == [] ||
        var last := |slices| - 1;
        && Renders(chunks[..last], kept, slices[..last])
        && slices[last].from <= slices[last].to <= |kept|
        && chunks[last] == Chunk(last, Join(kept[slices[last].from..slices[last].to])))
  }

  lemma {:induction false} ChunkAt(chunks: seq<Chunk>, kept: seq<string>, slices: seq<Slice>, i: nat)
    requires Renders(chunks, kept, slices) && i < |slices|
    ensures slices[i].from <= slices[i].to <= |kept|
    ensures chunks[i] == Chunk(i, Join(kept[slices[i].from..slices[i].to]))
    decreases |slices|
  {
    var last := |slices| - 1;
    if i < last {
      ChunkAt(chunks[..last], kept, slices[..last], i);
    }
  }

  // ---- the loop ---------------------------------------------------------------

  datatype Window = Window(slices: seq<Slice>, from: nat)

  /** The loop after n sentences: the slices it has settled and where the open one starts. */
  function Slide(kept: seq<string>, n: nat, size: int, overlap: int): (w: Window)
    requires n <= |kept|
    ensures w.from <= n && (n > 0 ==> w.from < n)
    decreases n
  {
    if n == 0 then Window([], 0) else
    var w := Slide(kept, n - 1, size, overlap);
    if n > 1 && Length(kept, w.from, n - 1) + |kept[n - 1]| > size then
      Window(w.slices + [Slice(w.from, n - 1)], TailStart(kept, w.from, n - 1, overlap))
    else w
  }

  function SlicesOf(kept: seq<string>, size: int, overlap: int): seq<Slice> {
    if kept == [] then [] else
    var w := Slide(kept, |kept|, size, overlap);
    w.slices + [Slice(w.from, |kept|)]
  }

  /** slices are settled, and the next one, from `from`, has taken sentences up to n. */
  ghost predicate Growing(kept: seq<string>, slices: seq<Slice>, from: nat, n: nat, size: int, overlap: int) {
    && Sliced(kept, slices, size, overlap)
    && from <= EndOf(slices) <= n <= |kept|
    && Starts(kept, slices, from, overlap)
    && Fits(kept, from, EndOf(slices), n, size)
  }

  /** The inner loop: walk back through the finished chunk while sentences fit the overlap. */
  method OverlapOf(current: seq<string>, overlap: int) returns (sentences: seq<string>, length: nat)
    ensures sentences == current[TailStart(current, 0, |current|, overlap)..]
    ensures length == Length(current, TailStart(current, 0, |current|, overlap), |current|)
  {
    sentences, length := [], 0;
    for i := |current| downto 0
      invariant sentences == current[i..] && length == Length(current, i, |current|)
      invariant WalkBack(current, 0, |current|, i, overlap) == TailStart(current, 0, |current|, overlap)
    {
      if length + |current[i]| > overlap {
        break;
      }
      LengthFront(current, i, |current|);
      sentences := [current[i]] + sentences;
      length := length + |current[i]| + 1;
    }
  }

  lemma KeptPrefix(pieces: seq<string>, i: nat)
    requires i <= |pieces|
    ensures |Kept(pieces[..i])| <= |Kept(pieces)| && Kept(pieces)[..|Kept(pieces[..i])|] == Kept(pieces[..i])
    decreases |pieces| - i
  {
    if i == |pieces| {
      assert pieces[..i] == pieces;
    } else {
      KeptPrefix(pieces, i + 1);
      assert pieces[..i + 1][..i] == pieces[..i];
    }
  }

  /** The next sentence of the document is the next piece that is not empty. */
  lemma NextPiece(pieces: seq<string>, i: nat, kept: seq<string>, n: nat)
    requires i < |pieces| && kept == Kept(pieces) && n == |Kept(pieces[..i])|
    ensures pieces[i] == "" ==> |Kept(pieces[..i + 1])| == n
    ensures pieces[i] != "" ==> |Kept(pieces[..i + 1])| == n + 1 && n < |kept| && kept[n] == pieces[i]
  {
    assert pieces[..i + 1][..i] == pieces[..i];
    KeptPrefix(pieces, i + 1);
  }

  /** A slice that has taken something new and is full, or has reached the end, is settled. */
  lemma SliceSettles(kept: seq<string>, slices: seq<Slice>, from: nat, n: nat, size: int, overlap: int)
    requires Growing(kept, slices, from, n, size, overlap) && EndOf(slices) < n
    requires Full(kept, from, n, size)
    ensures Sliced(kept, slices + [Slice(from, n)], size, overlap)
  {
    var all := slices + [Slice(from, n)];
    assert all[..|all| - 1] == slices;
  }

  /** A sentence that fits, or the first after the overlap, is taken. */
  lemma SentenceJoins(kept: seq<string>, slices: seq<Slice>, from: nat, n: nat, size: int, overlap: int)
    requires Growing(kept, slices, from, n, size, overlap) && n < |kept|
    requires EndOf(slices) < n ==> Length(kept, from, n) + |kept[n]| <= size
    ensures Growing(kept, slices, from, n + 1, size, overlap)
  {
  }

  lemma {:induction false} SlideGrows(kept: seq<string>, n: nat, size: int, overlap: int)
    requires n <= |kept|
    ensures var w := Slide(kept, n, size, overlap);
            Growing(kept, w.slices, w.from, n, size, overlap) && (n > 0 ==> EndOf(w.slices) < n)
    decreases n
  {
    if n > 0 {
      var m := n - 1;
      var w := Slide(kept, m, size, overlap);
      SlideGrows(kept, m, size, overlap);
      if m > 0 && Length(kept, w.from, m) + |kept[m]| > size {
        SliceSettles(kept, w.slices, w.from, m, size, overlap);
        var start := TailStart(kept, w.from, m, overlap);
        SentenceJoins(kept, w.slices + [Slice(w.from, m)], start, m, size, overlap);
      } else {
        SentenceJoins(kept, w.slices, w.from, m, size, overlap);
      }
    }
  }

  /** The slices the loop settles are a chunking of the document. */
  lemma SlicesChunk(kept: seq<string>, size: int, overlap: int)
    ensures IsChunking(kept, SlicesOf(kept, size, overlap), size, overlap)
  {
    if kept != [] {
      var w := Slide(kept, |kept|, size, overlap);
      SlideGrows(kept, |kept|, size, overlap);
      SliceSettles(kept, w.slices, w.from, |kept|, size, overlap);
    }
  }

  lemma ChunkRenders(chunks: seq<Chunk>, kept: seq<string>, slices: seq<Slice>, from: nat, to: nat)
    requires Renders(chunks, kept, slices) && from <= to <= |kept|
    ensures Renders(chunks + [Chunk(|chunks|, Join(kept[from..to]))], kept, slices + [Slice(from, to)])
  {
    var all := slices + [Slice(from, to)];
    var text := chunks + [Chunk(|chunks|, Join(kept[from..to]))];
    assert all[..|all| - 1] == slices && text[..|text| - 1] == chunks;
  }

  /** The overlap found in a chunk is the one found in the document. */
  lemma OverlapInPlace(kept: seq<string>, from: nat, n: nat, part: seq<string>, s: nat, overlap: int)
    requires from <= n <= |kept| && part == kept[from..n] && s == TailStart(part, 0, |part|, overlap) <= |part|
    ensures var start := TailStart(kept, from, n, overlap);
            part[s..] == kept[start..n] && Length(part, s, |part|) == Length(kept, start, n)
  {
    TailInPlace(kept, from, n, part, overlap);
    LengthInPlace(kept, from, part, s, |part|, from + s, n);
  }

  lemma SentenceTaken(kept: seq<string>, from: nat, n: nat, m: nat, part: seq<string>, sentence: string)
    requires from <= n < |kept| && m == n + 1 && part == kept[from..n] && sentence == kept[n]
    ensures kept[from..m] == part + [sentence]
    ensures Length(kept, from, m) == Length(kept, from, n) + |sentence| + 1
  {
  }

  lemma SlideStep(kept: seq<string>, n: nat, m: nat, w: Window, next: Window, size: int, overlap: int)
    requires n < |kept| && m == n + 1 && w == Slide(kept, n, size, overlap)
    requires next == if n > 0 && Length(kept, w.from, n) + |kept[n]| > size
                     then Window(w.slices + [Slice(w.from, n)], TailStart(kept, w.from, n, overlap)) else w
    ensures next == Slide(kept, m, size, overlap)
  {
  }

  method ChunkSlidingWindow(pieces: seq<string>, size: int, overlap: int) returns (chunks: seq<Chunk>)
    ensures Renders(chunks, Kept(pieces), SlicesOf(Kept(pieces), size, overlap))
  {
    ghost var kept := Kept(pieces);
    ghost var n: nat, w := 0, Window([], 0);
    var current: seq<string>, length: nat := [], 0;
    chunks := [];
    for i := 0 to |pieces|
      invariant n == |Kept(pieces[..i])| <= |kept|
      invariant w == Slide(kept, n, size, overlap)
      invariant current == kept[w.from..n] && length == Length(kept, w.from, n)
      invariant n > 0 ==> current != []
      invariant Renders(chunks, kept, w.slices)
    {
      NextPiece(pieces, i, kept, n);
      var sentence := pieces[i];
      if sentence != "" {
        ghost var before := w;
        if length + |sentence| > size && current != [] {
          ChunkRenders(chunks, kept, w.slices, w.from, n);
          OverlapInPlace(kept, w.from, n, current, TailStart(current, 0, |current|, overlap), overlap);
          chunks := chunks + [Chunk(|chunks|, Join(current))];
          current, length := OverlapOf(current, overlap);
          w := Window(w.slices + [Slice(w.from, n)], TailStart(kept, w.from, n, overlap));
        }
        ghost var m := n + 1;
        SlideStep(kept, n, m, before, w, size, overlap);
        SentenceTaken(kept, w.from, n, m, current, sentence);
        current := current + [sentence];
        length := length + |sentence| + 1;
        n := m;
      }
    }
    assert pieces[..|pieces|] == pieces;
    if current != [] {
      ChunkRenders(chunks, kept, w.slices, w.from, n);
      chunks := chunks + [Chunk(|chunks|, Join(current))];
    }
  }

  // ---- what a chunking promises -----------------------------------------------

  lemma {:induction false} FirstSlices(kept: seq<string>, slices: seq<Slice>, n: nat, size: int, overlap: int)
    requires Sliced(kept, slices, size, overlap) && n <= |slices|
    ensures Sliced(kept, slices[..n], size, overlap)
    decreases |slices|
  {
    if n == |slices| {
      assert slices[..n] == slices;
    } else {
      var front := slices[..|slices| - 1];
      FirstSlices(kept, front, n, size, overlap);
      assert front[..n] == slices[..n];
    }
  }

  /** Slices move forward: each ends later than the one before and starts no earlier, inside its overlap. */
  lemma SlicesAdvance(kept: seq<string>, slices: seq<Slice>, i: nat, size: int, overlap: int)
    requires Sliced(kept, slices, size, overlap) && i + 1 < |slices|
    ensures var (p, q) := (slices[i], slices[i + 1]);
            && p.from <= q.from <= p.to < q.to <= |kept|
            && q.from == TailStart(kept, p.from, p.to, overlap)
  {
    FirstSlices(kept, slices, i + 2, size, overlap);
    assert slices[..i + 2][..i + 1] == slices[..i + 1];
  }

  function Part(kept: seq<string>, slice: Slice): seq<string> {
    if slice.from <= slice.to <= |kept| then kept[slice.from..slice.to] else []
  }

  /** The sentences of each chunk. */
  function Parts(kept: seq<string>, slices: seq<Slice>): seq<seq<string>>
    decreases |slices|
  {
    if slices == [] then [] else
    var last := |slices| - 1;
    Parts(kept, slices[..last]) + [Part(kept, slices[last])]
  }

  /** part without its first n sentences */
  function Without(part: seq<string>, n: int): seq<string> {
    if 0 <= n <= |part| then part[n..] else []
  }

  /** The document put together again: of each part, what the overlap of the one before does not repeat. */
  function Rebuilt(parts: seq<seq<string>>, overlap: int): seq<string>
    decreases |parts|
  {
    if parts == [] then [] else
    var last := |parts| - 1;
    if last == 0 then parts[0] else
    var previous := parts[last - 1];
    var repeated := |previous| - TailStart(previous, 0, |previous|, overlap);
    Rebuilt(parts[..last], overlap) + Without(parts[last], repeated)
  }

  lemma PartsLast(kept: seq<string>, slices: seq<Slice>)
    requires slices != []
    ensures var parts := Parts(kept, slices);
            && |parts| == |slices|
            && parts[..|parts| - 1] == Parts(kept, slices[..|slices| - 1])
            && parts[|parts| - 1] == Part(kept, slices[|slices| - 1])
    decreases |slices|
  {
    if |slices| > 1 {
      PartsLast(kept, slices[..|slices| - 1]);
    }
  }

  lemma DropRepeated(kept: seq<string>, from: nat, middle: nat, to: nat, part: seq<string>, repeated: int)
    requires from <= middle <= to <= |kept| && part == kept[from..to] && repeated == middle - from
    ensures kept[..middle] + Without(part, repeated) == kept[..to]
  {
    assert part[repeated..] == kept[middle..to];
  }

  /** The part of a slice, its repeated sentences dropped, carries on where the previous slice stopped. */
  lemma PartCarriesOn(kept: seq<string>, p: Slice, q: Slice, previous: seq<string>, repeated: int, overlap: int)
    requires p.from <= p.to < q.to <= |kept| && q.from == TailStart(kept, p.from, p.to, overlap)
    requires previous == Part(kept, p) && repeated == |previous| - TailStart(previous, 0, |previous|, overlap)
    ensures kept[..p.to] + Without(Part(kept, q), repeated) == kept[..q.to]
  {
    TailInPlace(kept, p.from, p.to, previous, overlap);
    DropRepeated(kept, q.from, p.to, q.to, Part(kept, q), repeated);
  }

  lemma {:induction false} RebuiltSoFar(kept: seq<string>, slices: seq<Slice>, size: int, overlap: int)
    requires Sliced(kept, slices, size, overlap)
    ensures EndOf(slices) <= |kept| && Rebuilt(Parts(kept, slices), overlap) == kept[..EndOf(slices)]
    decreases |slices|
  {
    if slices != [] {
      var before := slices[..|slices| - 1];
      RebuiltSoFar(kept, before, size, overlap);
      PartsLast(kept, slices);
      if before != [] {
        PartsLast(kept, before);
        var p := before[|before| - 1];
        var previous := Part(kept, p);
        var repeated := |previous| - TailStart(previous, 0, |previous|, overlap);
        PartCarriesOn(kept, p, slices[|slices| - 1], previous, repeated, overlap);
      }
    }
  }

  /** Nothing is lost, reordered or invented: the parts alone give back every sentence in order. */
  lemma Lossless(kept: seq<string>, slices: seq<Slice>, size: int, overlap: int)
    requires IsChunking(kept, slices, size, overlap)
    ensures Rebuilt(Parts(kept, slices), overlap) == kept
  {
    RebuiltSoFar(kept, slices, size, overlap);
  }

  lemma {:induction false} FitsAt(kept: seq<string>, from: nat, base: nat, n: nat, j: nat, size: int)
    requires from <= base < j < n <= |kept| && Fits(kept, from, base, n, size)
    ensures Length(kept, from, j) + |kept[j]| <= size
    decreases n
  {
    if j < n - 1 {
      FitsAt(kept, from, base, n - 1, j, size);
    }
  }

  lemma {:induction false} SlicesDetermined(kept: seq<string>, a: seq<Slice>, b: seq<Slice>, size: int, overlap: int)
    requires Sliced(kept, a, size, overlap) && Sliced(kept, b, size, overlap) && |a| <= |b|
    ensures a == b[..|a|]
    decreases |a|
  {
    if a != [] {
      var last := |a| - 1;
      FirstSlices(kept, b, |a|, size, overlap);
      var c := b[..|a|];
      SlicesDetermined(kept, a[..last], c[..last], size, overlap);
      assert c[..last][..last] == c[..last];
      LastDetermined(kept, a[..last], a[last], c[last], size, overlap);
    }
  }

  lemma LastDetermined(kept: seq<string>, before: seq<Slice>, p: Slice, q: Slice, size: int, overlap: int)
    requires EndOf(before) <= |kept|
    requires Starts(kept, before, p.from, overlap) && Starts(kept, before, q.from, overlap)
    requires p.from <= EndOf(before) < p.to <= |kept| && q.from <= EndOf(before) < q.to <= |kept|
    requires Fits(kept, p.from, EndOf(before), p.to, size) && Full(kept, p.from, p.to, size)
    requires Fits(kept, q.from, EndOf(before), q.to, size) && Full(kept, q.from, q.to, size)
    ensures p == q
  {
    if p.to < q.to {
      FitsAt(kept, q.from, EndOf(before), q.to, p.to, size);
    } else if q.to < p.to {
      FitsAt(kept, p.from, EndOf(before), p.to, q.to, size);
    }
  }

  /** A document has one chunking, and it is the one the loop finds. */
  lemma ChunkingUnique(kept: seq<string>, slices: seq<Slice>, size: int, overlap: int)
    ensures IsChunking(kept, slices, size, overlap) <==> slices == SlicesOf(kept, size, overlap)
  {
    var found := SlicesOf(kept, size, overlap);
    SlicesChunk(kept, size, overlap);
    if IsChunking(kept, slices, size, overlap) {
      if |slices| <= |found| {
        SlicesDetermined(kept, slices, found, size, overlap);
        SameLength(kept, slices, found, size, overlap);
      } else {
        SlicesDetermined(kept, found, slices, size, overlap);
        SameLength(kept, found, slices, size, overlap);
      }
    }
  }

  /** A slice that another follows ends before the document does. */
  lemma EndsBefore(kept: seq<string>, slices: seq<Slice>, n: nat, size: int, overlap: int)
    requires Sliced(kept, slices, size, overlap) && n < |slices|
    ensures EndOf(slices[..n]) < |kept|
  {
    FirstSlices(kept, slices, n + 1, size, overlap);
    assert slices[..n + 1][..n] == slices[..n];
  }

  lemma SameLength(kept: seq<string>, a: seq<Slice>, b: seq<Slice>, size: int, overlap: int)
    requires Sliced(kept, b, size, overlap) && EndOf(a) == |kept| && |a| <= |b| && a == b[..|a|]
    ensures a == b
  {
    if |a| < |b| {
      EndsBefore(kept, b, |a|, size, overlap);
    }
  }

  lemma {:induction false} LastFits(kept: seq<string>, from: nat, base: nat, to: nat, size: int)
    requires from <= base && base + 1 < to <= |kept| && Fits(kept, from, base, to, size)
    ensures Length(kept, from, to) - 1 <= size
  {
  }

  /** A part that starts with the overlap of the slice before and takes one sentence more. */
  lemma OneMore(kept: seq<string>, previous: Slice, from: nat, to: nat, overlap: int)
    requires previous.from <= previous.to == to - 1 < |kept| && from < to - 1
    requires from == TailStart(kept, previous.from, previous.to, overlap)
    ensures Length(kept, from, to) - 1 <= overlap + 1 + |kept[to - 1]|
  {
    TailStops(kept, previous.from, previous.to, overlap);
    SuffixLength(kept, from, previous.to);
  }

  /** The part of a slice after `before` obeys the bound. */
  lemma NextLength(kept: seq<string>, before: seq<Slice>, slice: Slice, longest: nat, size: int, overlap: int)
    requires EndOf(before) <= |kept| && Starts(kept, before, slice.from, overlap)
    requires slice.from <= EndOf(before) < slice.to <= |kept|
    requires Fits(kept, slice.from, EndOf(before), slice.to, size)
    requires |kept[slice.to - 1]| <= longest
    ensures Length(kept, slice.from, slice.to) - 1 <= Max(size, Max(longest, overlap + 1 + longest))
  {
    var (from, to, base) := (slice.from, slice.to, EndOf(before));
    if to > base + 1 {
      LastFits(kept, from, base, to, size);
    } else if from < base {
      OneMore(kept, before[|before| - 1], from, to, overlap);
    } else {
      assert Length(kept, from, to) == |kept[from]| + 1 by {
        LengthFront(kept, from, to);
      }
    }
  }

  /** No chunk is longer than the size, or than the overlap, a space and the longest sentence. */
  lemma ChunkLength(kept: seq<string>, slices: seq<Slice>, i: nat, longest: nat, size: int, overlap: int)
    requires Sliced(kept, slices, size, overlap) && i < |slices|
    requires forall k :: 0 <= k < |kept| ==> |kept[k]| <= longest
    ensures slices[i].from < slices[i].to <= |kept|
    ensures |Join(kept[slices[i].from..slices[i].to])| <= Max(size, Max(longest, overlap + 1 + longest))
    ensures overlap >= -1 ==> |Join(kept[slices[i].from..slices[i].to])| <= Max(size, overlap + 1 + longest)
  {
    FirstSlices(kept, slices, i + 1, size, overlap);
    NextLength(kept, slices[..i + 1][..i], slices[i], longest, size, overlap);
    SuffixLength(kept, slices[i].from, slices[i].to);
  }

  /** For an overlap below -1 the plain bound fails: a document of one sentence already exceeds it. */
  lemma PlainBoundFails(overlap: int)
    requires overlap < -1
    ensures var (kept, slices) := (["a"], [Slice(0, 1)]);
            IsChunking(kept, slices, 0, overlap) && |Join(kept[0..1])| > Max(0, overlap + 1 + 1)
  {
    var slices := [Slice(0, 1)];
    assert slices[..0] == [];
    assert ["a"][0..1] == ["a"];
  }

  /** No chunk of the document is longer than the size, or than the overlap, a space and the longest sentence. */
  ghost predicate WithinBound(kept: seq<string>, slices: seq<Slice>, i: nat, longest: nat, size: int, overlap: int) {
    && Sliced(kept, slices, size, overlap) && i < |slices|
    && (forall k :: 0 <= k < |kept| ==> |kept[k]| <= longest)
    ==> |Join(Part(kept, slices[i]))| <= Max(size, overlap + 1 + longest)
  }

  ghost predicate PlainBound(overlap: int) {
    forall kept, slices, i, longest, size :: WithinBound(kept, slices, i, longest, size, overlap)
  }

  /** The plain bound holds of every document and size exactly for the overlaps from -1 on. */
  lemma PlainBoundExactly(overlap: int)
    ensures PlainBound(overlap) <==> overlap >= -1
  {
    if overlap >= -1 {
      forall kept, slices, i: nat, longest: nat, size
        ensures WithinBound(kept, slices, i, longest, size, overlap)
      {
        if Sliced(kept, slices, size, overlap) && i < |slices| && forall k :: 0 <= k < |kept| ==> |kept[k]| <= longest {
          ChunkLength(kept, slices, i, longest, size, overlap);
        }
      }
    } else {
      PlainBoundFails(overlap);
      assert !WithinBound(["a"], [Slice(0, 1)], 0, 1, 0, overlap);
    }
  }

  /**
   A slice takes sentences while the text they make with what it has fits the size, the first new
   one in any case, and stops at the first that does not fit.
  */
  lemma SliceMeaning(kept: seq<string>, slices: seq<Slice>, i: nat, size: int, overlap: int, n: nat, next: nat)
    requires Sliced(kept, slices, size, overlap) && i < |slices| && next == slices[i].to + 1
    ensures var (from, to, base) := (slices[i].from, slices[i].to, EndOf(slices[..i]));
            && from <= base < to <= |kept|
            && (base + 1 < n <= to ==> |Join(kept[from..n])| <= size)
            && (next <= |kept| ==> |Join(kept[from..next])| > size)
  {
    var (from, to, base) := (slices[i].from, slices[i].to, EndOf(slices[..i]));
    SliceAt(kept, slices, i, from, to, base, size, overlap);
    if base + 1 < n <= to {
      SliceTakes(kept, from, base, to, n, size);
    }
    if next <= |kept| {
      SliceStops(kept, from, to, next, size);
    }
  }

  lemma SliceAt(kept: seq<string>, slices: seq<Slice>, i: nat, from: nat, to: nat, base: nat, size: int, overlap: int)
    requires Sliced(kept, slices, size, overlap) && i < |slices|
    requires slices[i] == Slice(from, to) && base == EndOf(slices[..i])
    ensures from <= base < to <= |kept| && Fits(kept, from, base, to, size) && Full(kept, from, to, size)
  {
    FirstSlices(kept, slices, i + 1, size, overlap);
    assert slices[..i + 1][..i] == slices[..i];
  }

  lemma SliceTakes(kept: seq<string>, from: nat, base: nat, to: nat, n: nat, size: int)
    requires from <= base && base + 1 < n <= to <= |kept| && Fits(kept, from, base, to, size)
    ensures |Join(kept[from..n])| <= size
  {
    FitsAt(kept, from, base, to, n - 1, size);
    SuffixLength(kept, from, n);
  }

  lemma SliceStops(kept: seq<string>, from: nat, to: nat, next: nat, size: int)
    requires from <= to < |kept| && next == to + 1 && Full(kept, from, to, size)
    ensures |Join(kept[from..next])| > size
  {
    SuffixLength(kept, from, next);
  }

  // ---- filtering and renumbering ----------------------------------------------

  /** The chunks long enough to keep, in order. */
  function LongEnough(chunks: seq<Chunk>): seq<Chunk>
    decreases |chunks|
  {
    if chunks == [] then [] else
    var last := |chunks| - 1;
    LongEnough(chunks[..last]) + if |Strip(chunks[last].content)| >= MIN_CHUNK_SIZE then [chunks[last]] else []
  }

  /** A chunk whose text is shorter than 100 characters without the blanks around it is dropped. */
  lemma LongEnoughOne(chunk: Chunk)
    ensures LongEnough([chunk]) == if |Strip(chunk.content)| < 100 then [] else [chunk]
  {
    assert [chunk][..0] == [];
  }

  /** The others stay, in order. */
  lemma {:induction false} LongEnoughAppend(a: seq<Chunk>, b: seq<Chunk>)
    ensures LongEnough(a + b) == LongEnough(a) + LongEnough(b)
    decreases |b|
  {
    if b == [] {
      assert a + b == a;
    } else {
      assert (a + b)[..|a + b| - 1] == a + b[..|b| - 1];
      LongEnoughAppend(a, b[..|b| - 1]);
    }
  }

  method FilterAndRenumber(chunks: seq<Chunk>) returns (kept: seq<Chunk>)
    ensures |kept| == |LongEnough(chunks)|
    ensures forall i :: 0 <= i < |kept| ==> kept[i] == Chunk(i, LongEnough(chunks)[i].content)
  {
    kept := [];
    for i := 0 to |chunks|
      invariant kept == LongEnough(chunks[..i])
    {
      assert chunks[..i + 1][..i] == chunks[..i];
      if |Strip(chunks[i].content)| >= MIN_CHUNK_SIZE {
        kept := kept + [chunks[i]];
      }
    }
    assert chunks[..|chunks|] == chunks;
    for i := 0 to |kept|
      invariant |kept| == |LongEnough(chunks)|
      invariant forall k :: 0 <= k < i ==> kept[k] == Chunk(k, LongEnough(chunks)[k].content)
      invariant forall k :: i <= k < |kept| ==> kept[k] == LongEnough(chunks)[k]
    {
      kept := kept[i := kept[i].(index := i)];
    }
  }
}
