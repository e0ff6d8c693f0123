/**
  Packing of a YUV 4:2:0 frame into the renderer's contiguous Y|U|V store.

  All three GL renderer revisions (GLVideoRendererYUV420, VideoRendererYUV420,
  VideoRenderYUV420) copy a frame with the same code: the Y plane is copied in
  one block when its stride equals the width and row by row otherwise, and the
  U and V planes likewise against half the width.  PackFrame is the store that
  code produces; CopyPlanes is the copy itself, proved against PackFrame.

  The row copies are defined the way the code runs them: copy one row at the
  current source and destination pointers, advance both pointers by their
  strides, repeat.  The lemmas then say where row r ends up.
*/
module FrameCopy {

  type Byte = b: int | 0 <= b < 256

  /** m_sizeY: the luma plane holds width * height bytes. */
  function SizeY(w: nat, h: nat): nat { w * h }

  /** m_sizeU == m_sizeV: each chroma plane is given width * height / 4 bytes. */
  function SizeUV(w: nat, h: nat): nat { w * h / 4 }

  /** The length of the store allocated for a w x h frame. */
  function StoreSize(w: nat, h: nat): nat { SizeY(w, h) + SizeUV(w, h) + SizeUV(w, h) }

  /**
    A video_frame: dimensions, row strides, and the three plane pointers,
    given as offsets into one source byte sequence.
  */
  datatype Frame = Frame(width: nat, height: nat, strideY: nat, strideUV: nat,
                         data: seq<Byte>, offY: nat, offU: nat, offV: nat)

  /** n bytes starting at off lie inside a buffer of length len. */
  predicate Fits(len: nat, off: nat, n: nat) { off + n <= len }

  /** `rows` rows of `width` bytes, the first at `at`, each `stride` after the last, lie inside the buffer. */
  predicate RowsFit(len: nat, at: nat, stride: nat, width: nat, rows: nat)
    decreases rows
  {
    rows == 0 || (Fits(len, at, width) && RowsFit(len, at + stride, stride, width, rows - 1))
  }

  /** The n bytes of s at off (what memcpy reads). */
  function Take(s: seq<Byte>, off: nat, n: nat): (r: seq<Byte>)
    requires Fits(|s|, off, n)
    ensures |r| == n
  {
    s[off..off + n]
  }

  /** s with the bytes at [at, at + |piece|) replaced by piece (what memcpy writes). */
  function Splice(s: seq<Byte>, at: nat, piece: seq<Byte>): (r: seq<Byte>)
    requires Fits(|s|, at, |piece|)
    ensures |r| == |s|
  {
    seq(|s|, k requires 0 <= k < |s| => if at <= k < at + |piece| then piece[k - at] else s[k])
  }

  /** Byte k of a Take is byte off + k of the source. */
  lemma {:induction false} TakeAt(s: seq<Byte>, off: nat, n: nat, k: nat)
    requires Fits(|s|, off, n) && k < n
    ensures Take(s, off, n)[k] == s[off + k]
  {
  }

  /** Byte k of a Splice comes from the piece inside [at, at + |piece|) and from s outside it. */
  lemma {:induction false} SpliceAt(s: seq<Byte>, at: nat, piece: seq<Byte>, k: nat)
    requires Fits(|s|, at, |piece|) && k < |s|
    ensures Splice(s, at, piece)[k] == if at <= k < at + |piece| then piece[k - at] else s[k]
  {
  }

  /**
    The row loop: `rows` times, copy `width` bytes from src at srcAt to dst at
    dstAt, then advance srcAt by srcStride and dstAt by dstStride.
  */
  function CopyRows(dst: seq<Byte>, dstAt: nat, dstStride: nat,
                    src: seq<Byte>, srcAt: nat, srcStride: nat,
                    width: nat, rows: nat): (r: seq<Byte>)
    requires RowsFit(|dst|, dstAt, dstStride, width, rows)
    requires RowsFit(|src|, srcAt, srcStride, width, rows)
    ensures |r| == |dst|
    decreases rows
  {
    if rows == 0 then dst
    else
      CopyRows(Splice(dst, dstAt, Take(src, srcAt, width)), dstAt + dstStride, dstStride,
               src, srcAt + srcStride, srcStride, width, rows - 1)
  }

  /**
    The chroma row loop: `rows` times, copy one U row and then one V row,
    advancing both destination pointers by `width` and both source pointers
    by `srcStride`.
  */
  function CopyChroma(dst: seq<Byte>, uAt: nat, vAt: nat, width: nat,
                      src: seq<Byte>, srcU: nat, srcV: nat, srcStride: nat,
                      rows: nat): (r: seq<Byte>)
    requires RowsFit(|dst|, uAt, width, width, rows) && RowsFit(|dst|, vAt, width, width, rows)
    requires RowsFit(|src|, srcU, srcStride, width, rows) && RowsFit(|src|, srcV, srcStride, width, rows)
    ensures |r| == |dst|
    decreases rows
  {
    if rows == 0 then dst
    else
      var withU := Splice(dst, uAt, Take(src, srcU, width));
      var withV := Splice(withU, vAt, Take(src, srcV, width));
      CopyChroma(withV, uAt + width, vAt + width, width, src, srcU + srcStride, srcV + srcStride, srcStride, rows - 1)
  }

  // ---------------------------------------------------------------------------
  // Arithmetic facts about the plane layout

  lemma {:induction false} MulLe(a: nat, b: nat, c: nat)
    requires a <= b
    ensures a * c <= b * c
  {
  }

  lemma {:induction false} MulStep(r: nat, stride: nat)
    requires r > 0
    ensures r * stride == stride + (r - 1) * stride
  {
  }

  /** rows rows of `w` bytes packed back to back from base fit in len bytes. */
  lemma {:induction false} PackedRowsFit(base: nat, w: nat, rows: nat, len: nat)
    requires base + rows * w <= len
    ensures RowsFit(len, base, w, w, rows)
    decreases rows
  {
    if rows > 0 {
      MulStep(rows, w);
      PackedRowsFit(base + w, w, rows - 1, len);
    }
  }

  /**
    The strided chroma copy writes (h/2) rows of (w/2) bytes per plane; they fit
    in the w*h/4 bytes given to each chroma plane.
  */
  lemma {:induction false} ChromaFits(w: nat, h: nat)
    ensures (h / 2) * (w / 2) <= SizeUV(w, h)
  {
    MulLe(2 * (h / 2), h, 2 * (w / 2));
    MulLe(2 * (w / 2), w, h);
    assert 4 * ((h / 2) * (w / 2)) <= w * h;
  }

  /** The offset draw() gives the V plane, w*h*5/4, is exactly where the store's V region starts. */
  lemma {:induction false} DrawOffsetsMatchLayout(w: nat, h: nat)
    ensures w * h * 5 / 4 == SizeY(w, h) + SizeUV(w, h)
  {
    var n := w * h;
    assert n * 5 == 4 * n + n;
  }

  // ---------------------------------------------------------------------------
  // Where the row copies put things

  /** Where row r of a run starts: the pointer after r advances by stride. */
  function RowAt(at: nat, stride: nat, r: nat): nat
    decreases r
  {
    if r == 0 then at else RowAt(at + stride, stride, r - 1)
  }

  /** Where row r of rows `stride` apart starts, written as a product. */
  function RowStart(at: nat, stride: nat, r: nat): nat { at + r * stride }

  /** Advancing by a stride r times is adding r * stride. */
  lemma {:induction false} RowAtIsProduct(at: nat, stride: nat, r: nat)
    ensures RowAt(at, stride, r) == at + r * stride
    decreases r
  {
    if r > 0 {
      RowAtIsProduct(at + stride, stride, r - 1);
      MulStep(r, stride);
    }
  }

  /** Row r of a run of rows that fits lies inside the buffer. */
  lemma {:induction false} RowsFitRow(len: nat, at: nat, stride: nat, width: nat, rows: nat, r: nat)
    requires RowsFit(len, at, stride, width, rows) && r < rows
    ensures Fits(len, RowAt(at, stride, r), width)
    decreases r
  {
    if r > 0 {
      RowsFitRow(len, at + stride, stride, width, rows - 1, r - 1);
    }
  }

  /** Later rows start no earlier than the run does. */
  lemma {:induction false} RowAtAtLeast(at: nat, stride: nat, r: nat)
    ensures at <= RowAt(at, stride, r)
    decreases r
  {
    if r > 0 {
      RowAtAtLeast(at + stride, stride, r - 1);
    }
  }

  /** Row r ends (at most width <= stride later) no later than row r + 1 starts, and so before row `rows` for r < rows. */
  lemma {:induction false} RowAtOrdered(at: nat, stride: nat, r: nat, rows: nat)
    requires r < rows
    ensures RowAt(at, stride, r) + stride <= RowAt(at, stride, rows)
    decreases r
  {
    if r == 0 {
      RowAtAtLeast(at + stride, stride, rows - 1);
    } else {
      RowAtOrdered(at + stride, stride, r - 1, rows - 1);
    }
  }

  lemma {:induction false} TakeSplicedOutside(s: seq<Byte>, at: nat, piece: seq<Byte>, off: nat, n: nat)
    requires Fits(|s|, at, |piece|) && Fits(|s|, off, n)
    requires off + n <= at || at + |piece| <= off
    ensures Take(Splice(s, at, piece), off, n) == Take(s, off, n)
  {
    forall k | 0 <= k < n
      ensures Take(Splice(s, at, piece), off, n)[k] == Take(s, off, n)[k]
    {
      TakeAt(Splice(s, at, piece), off, n, k);
      TakeAt(s, off, n, k);
      SpliceAt(s, at, piece, off + k);
    }
  }

  lemma {:induction false} TakeSplicedInside(s: seq<Byte>, at: nat, piece: seq<Byte>)
    requires Fits(|s|, at, |piece|)
    ensures Take(Splice(s, at, piece), at, |piece|) == piece
  {
    forall k | 0 <= k < |piece|
      ensures Take(Splice(s, at, piece), at, |piece|)[k] == piece[k]
    {
      TakeAt(Splice(s, at, piece), at, |piece|, k);
      SpliceAt(s, at, piece, at + k);
    }
  }

  /** The row loop leaves every range that ends before its first row, or starts past its last stride, as it was. */
  lemma {:induction false} CopyRowsOutside(dst: seq<Byte>, dstAt: nat, dstStride: nat,
                                           src: seq<Byte>, srcAt: nat, srcStride: nat,
                                           width: nat, rows: nat, off: nat, n: nat)
    requires RowsFit(|dst|, dstAt, dstStride, width, rows)
    requires RowsFit(|src|, srcAt, srcStride, width, rows)
    requires width <= dstStride && Fits(|dst|, off, n)
    requires off + n <= dstAt || RowAt(dstAt, dstStride, rows) <= off
    ensures Take(CopyRows(dst, dstAt, dstStride, src, srcAt, srcStride, width, rows), off, n) == Take(dst, off, n)
    decreases rows
  {
    if rows > 0 {
      RowAtAtLeast(dstAt + dstStride, dstStride, rows - 1);
      var next := Splice(dst, dstAt, Take(src, srcAt, width));
      TakeSplicedOutside(dst, dstAt, Take(src, srcAt, width), off, n);
      CopyRowsOutside(next, dstAt + dstStride, dstStride, src, srcAt + srcStride, srcStride, width, rows - 1, off, n);
    }
  }

  /** The first row of the destination holds the first row of the source: later rows start past it. */
  lemma {:induction false} CopyRowsFirst(dst: seq<Byte>, dstAt: nat, dstStride: nat,
                      src: seq<Byte>, srcAt: nat, srcStride: nat,
                      width: nat, rows: nat)
    requires RowsFit(|dst|, dstAt, dstStride, width, rows)
    requires RowsFit(|src|, srcAt, srcStride, width, rows)
    requires width <= dstStride && 0 < rows
    ensures Fits(|dst|, dstAt, width) && Fits(|src|, srcAt, width)
    ensures Take(CopyRows(dst, dstAt, dstStride, src, srcAt, srcStride, width, rows), dstAt, width)
         == Take(src, srcAt, width)
  {
    var piece := Take(src, srcAt, width);
    var next := Splice(dst, dstAt, piece);
    CopyRowsOutside(next, dstAt + dstStride, dstStride, src, srcAt + srcStride, srcStride, width, rows - 1, dstAt, width);
    TakeSplicedInside(dst, dstAt, piece);
  }

  /** Row r of the destination holds row r of the source. */
  lemma {:induction false} CopyRowsRow(dst: seq<Byte>, dstAt: nat, dstStride: nat,
                                       src: seq<Byte>, srcAt: nat, srcStride: nat,
                                       width: nat, rows: nat, r: nat)
    requires RowsFit(|dst|, dstAt, dstStride, width, rows)
    requires RowsFit(|src|, srcAt, srcStride, width, rows)
    requires width <= dstStride && r < rows
    ensures Fits(|dst|, RowAt(dstAt, dstStride, r), width) && Fits(|src|, RowAt(srcAt, srcStride, r), width)
    ensures Take(CopyRows(dst, dstAt, dstStride, src, srcAt, srcStride, width, rows), RowAt(dstAt, dstStride, r), width)
         == Take(src, RowAt(srcAt, srcStride, r), width)
    decreases rows
  {
    if r == 0 {
      CopyRowsFirst(dst, dstAt, dstStride, src, srcAt, srcStride, width, rows);
    } else {
      var next := Splice(dst, dstAt, Take(src, srcAt, width));
      CopyRowsRow(next, dstAt + dstStride, dstStride, src, srcAt + srcStride, srcStride, width, rows - 1, r - 1);
    }
  }

  /** The chroma loop leaves every range clear of both its U rows and its V rows as it was. */
  lemma {:induction false} CopyChromaOutside(dst: seq<Byte>, uAt: nat, vAt: nat, width: nat,
                                             src: seq<Byte>, srcU: nat, srcV: nat, srcStride: nat,
                                             rows: nat, off: nat, n: nat)
    requires RowsFit(|dst|, uAt, width, width, rows) && RowsFit(|dst|, vAt, width, width, rows)
    requires RowsFit(|src|, srcU, srcStride, width, rows) && RowsFit(|src|, srcV, srcStride, width, rows)
    requires Fits(|dst|, off, n)
    requires off + n <= uAt || RowAt(uAt, width, rows) <= off
    requires off + n <= vAt || RowAt(vAt, width, rows) <= off
    ensures Take(CopyChroma(dst, uAt, vAt, width, src, srcU, srcV, srcStride, rows), off, n) == Take(dst, off, n)
    decreases rows
  {
    if rows > 0 {
      RowAtAtLeast(uAt + width, width, rows - 1);
      RowAtAtLeast(vAt + width, width, rows - 1);
      var withU := Splice(dst, uAt, Take(src, srcU, width));
      var withV := Splice(withU, vAt, Take(src, srcV, width));
      TakeSplicedOutside(dst, uAt, Take(src, srcU, width), off, n);
      TakeSplicedOutside(withU, vAt, Take(src, srcV, width), off, n);
      CopyChromaOutside(withV, uAt + width, vAt + width, width, src, srcU + srcStride, srcV + srcStride, srcStride,
                        rows - 1, off, n);
    }
  }

  /** Two non-overlapping memcpys: each range holds its own piece afterwards. */
  lemma {:induction false} SplicePair(s: seq<Byte>, uAt: nat, uPiece: seq<Byte>, vAt: nat, vPiece: seq<Byte>)
    requires Fits(|s|, uAt, |uPiece|) && Fits(|s|, vAt, |vPiece|) && uAt + |uPiece| <= vAt
    ensures var both := Splice(Splice(s, uAt, uPiece), vAt, vPiece);
            Take(both, uAt, |uPiece|) == uPiece && Take(both, vAt, |vPiece|) == vPiece
  {
    var withU := Splice(s, uAt, uPiece);
    TakeSplicedInside(s, uAt, uPiece);
    TakeSplicedOutside(withU, vAt, vPiece, uAt, |uPiece|);
    TakeSplicedInside(withU, vAt, vPiece);
  }

  /** The first U row and the first V row hold the first rows of their sources. */
  lemma {:induction false} CopyChromaFirst(dst: seq<Byte>, uAt: nat, vAt: nat, width: nat,
                        src: seq<Byte>, srcU: nat, srcV: nat, srcStride: nat,
                        rows: nat)
    requires RowsFit(|dst|, uAt, width, width, rows) && RowsFit(|dst|, vAt, width, width, rows)
    requires RowsFit(|src|, srcU, srcStride, width, rows) && RowsFit(|src|, srcV, srcStride, width, rows)
    requires RowAt(uAt, width, rows) <= vAt && 0 < rows
    ensures Fits(|dst|, uAt, width) && Fits(|dst|, vAt, width) && Fits(|src|, srcU, width) && Fits(|src|, srcV, width)
    ensures var res := CopyChroma(dst, uAt, vAt, width, src, srcU, srcV, srcStride, rows);
            Take(res, uAt, width) == Take(src, srcU, width) && Take(res, vAt, width) == Take(src, srcV, width)
  {
    var uPiece, vPiece := Take(src, srcU, width), Take(src, srcV, width);
    var withU := Splice(dst, uAt, uPiece);
    var withV := Splice(withU, vAt, vPiece);
    RowAtAtLeast(uAt + width, width, rows - 1);
    RowAtAtLeast(vAt + width, width, rows - 1);
    SplicePair(dst, uAt, uPiece, vAt, vPiece);
    CopyChromaOutside(withV, uAt + width, vAt + width, width, src, srcU + srcStride, srcV + srcStride, srcStride,
                      rows - 1, uAt, width);
    CopyChromaOutside(withV, uAt + width, vAt + width, width, src, srcU + srcStride, srcV + srcStride, srcStride,
                      rows - 1, vAt, width);
  }

  /** With the U rows ending before the V rows start, row r of each holds row r of its source. */
  lemma {:induction false} CopyChromaRow(dst: seq<Byte>, uAt: nat, vAt: nat, width: nat,
                                         src: seq<Byte>, srcU: nat, srcV: nat, srcStride: nat,
                                         rows: nat, r: nat)
    requires RowsFit(|dst|, uAt, width, width, rows) && RowsFit(|dst|, vAt, width, width, rows)
    requires RowsFit(|src|, srcU, srcStride, width, rows) && RowsFit(|src|, srcV, srcStride, width, rows)
    requires RowAt(uAt, width, rows) <= vAt && r < rows
    ensures Fits(|dst|, RowAt(uAt, width, r), width) && Fits(|dst|, RowAt(vAt, width, r), width)
    ensures Fits(|src|, RowAt(srcU, srcStride, r), width) && Fits(|src|, RowAt(srcV, srcStride, r), width)
    ensures var res := CopyChroma(dst, uAt, vAt, width, src, srcU, srcV, srcStride, rows);
            Take(res, RowAt(uAt, width, r), width) == Take(src, RowAt(srcU, srcStride, r), width) &&
            Take(res, RowAt(vAt, width, r), width) == Take(src, RowAt(srcV, srcStride, r), width)
    decreases rows
  {
    if r == 0 {
      CopyChromaFirst(dst, uAt, vAt, width, src, srcU, srcV, srcStride, rows);
    } else {
      var withU := Splice(dst, uAt, Take(src, srcU, width));
      var withV := Splice(withU, vAt, Take(src, srcV, width));
      CopyChromaRow(withV, uAt + width, vAt + width, width, src, srcU + srcStride, srcV + srcStride, srcStride,
                    rows - 1, r - 1);
    }
  }

  /** The n bytes of p at `at` exist and are the n bytes of q at qAt. */
  predicate SameRange(p: seq<Byte>, at: nat, q: seq<Byte>, qAt: nat, n: nat) {
    Fits(|p|, at, n) && Fits(|q|, qAt, n) && Take(p, at, n) == Take(q, qAt, n)
  }

  /** p and q both extend to hi and agree on [lo, hi). */
  predicate KeptBetween(p: seq<Byte>, q: seq<Byte>, lo: nat, hi: nat) {
    lo <= hi <= |p| && hi <= |q| && p[lo..hi] == q[lo..hi]
  }

  /** Two sequences that share a prefix agree on every range inside it. */
  lemma {:induction false} TakeInPrefix(p: seq<Byte>, q: seq<Byte>, n: nat, off: nat, len: nat)
    requires n <= |p| && n <= |q| && p[..n] == q[..n] && off + len <= n
    ensures Take(p, off, len) == Take(q, off, len)
  {
    forall k | 0 <= k < len
      ensures Take(p, off, len)[k] == Take(q, off, len)[k]
    {
      assert p[..n][off + k] == q[..n][off + k];
    }
  }

  /** Three memcpys of consecutive ranges from the same offsets of one buffer copy that buffer's prefix. */
  lemma {:induction false} ThreeCopiesVerbatim(s: seq<Byte>, buffer: seq<Byte>, a: nat, b: nat, c: nat)
    requires |s| == a + b + c && |s| <= |buffer|
    ensures Splice(Splice(Splice(s, 0, Take(buffer, 0, a)), a, Take(buffer, a, b)), a + b, Take(buffer, a + b, c))
            == buffer[..|s|]
  {
    var y := Splice(s, 0, Take(buffer, 0, a));
    var u := Splice(y, a, Take(buffer, a, b));
    var v := Splice(u, a + b, Take(buffer, a + b, c));
    forall k | 0 <= k < |s|
      ensures v[k] == buffer[k]
    {
      if k < a {
        assert y[k] == buffer[k];
      } else if k < a + b {
        assert u[k] == buffer[k];
      }
    }
  }

  /** Rows packed back to back from 0: row r of the destination holds source row r. */
  lemma {:induction false} PackedRowsRow(dst: seq<Byte>, w: nat, rows: nat,
                                         src: seq<Byte>, srcAt: nat, srcStride: nat, r: nat)
    requires rows * w <= |dst| && RowsFit(|src|, srcAt, srcStride, w, rows) && r < rows
    ensures RowsFit(|dst|, 0, w, w, rows)
    ensures RowStart(0, w, r) + w <= rows * w
    ensures SameRange(CopyRows(dst, 0, w, src, srcAt, srcStride, w, rows), RowStart(0, w, r), src, RowStart(srcAt, srcStride, r), w)
  {
    RowAtOrdered(0, w, r, rows);
    RowAtIsProduct(0, w, rows);
    PackedRowsFit(0, w, rows, |dst|);
    CopyRowsRow(dst, 0, w, src, srcAt, srcStride, w, rows, r);
    RowAtIsProduct(0, w, r);
    RowAtIsProduct(srcAt, srcStride, r);
  }

  /**
    Chroma rows packed back to back, U from uAt and V from uAt + n, with
    rows * cw <= n: row r of each holds source row r of its plane.
  */
  lemma {:induction false} PackedChromaRow(dst: seq<Byte>, uAt: nat, n: nat, cw: nat, rows: nat,
                                           src: seq<Byte>, srcU: nat, srcV: nat, srcStride: nat, r: nat)
    requires uAt + n + n <= |dst| && rows * cw <= n
    requires RowsFit(|src|, srcU, srcStride, cw, rows) && RowsFit(|src|, srcV, srcStride, cw, rows)
    requires r < rows
    ensures RowsFit(|dst|, uAt, cw, cw, rows) && RowsFit(|dst|, uAt + n, cw, cw, rows)
    ensures var res := CopyChroma(dst, uAt, uAt + n, cw, src, srcU, srcV, srcStride, rows);
            SameRange(res, RowStart(uAt, cw, r), src, RowStart(srcU, srcStride, r), cw) &&
            SameRange(res, RowStart(uAt + n, cw, r), src, RowStart(srcV, srcStride, r), cw)
  {
    PackedRowsFit(uAt, cw, rows, |dst|);
    PackedRowsFit(uAt + n, cw, rows, |dst|);
    RowAtIsProduct(uAt, cw, rows);
    RowAtIsProduct(uAt, cw, r);
    RowAtIsProduct(uAt + n, cw, r);
    RowAtIsProduct(srcU, srcStride, r);
    RowAtIsProduct(srcV, srcStride, r);
    CopyChromaRow(dst, uAt, uAt + n, cw, src, srcU, srcV, srcStride, rows, r);
  }

  /** The same packed chroma loop leaves each region's bytes past its rows * cw copied bytes as they were. */
  lemma {:induction false} PackedChromaTails(dst: seq<Byte>, uAt: nat, n: nat, cw: nat, rows: nat,
                                             src: seq<Byte>, srcU: nat, srcV: nat, srcStride: nat)
    requires uAt + n + n == |dst| && rows * cw <= n
    requires RowsFit(|src|, srcU, srcStride, cw, rows) && RowsFit(|src|, srcV, srcStride, cw, rows)
    ensures RowsFit(|dst|, uAt, cw, cw, rows) && RowsFit(|dst|, uAt + n, cw, cw, rows)
    ensures var res := CopyChroma(dst, uAt, uAt + n, cw, src, srcU, srcV, srcStride, rows);
            var m := rows * cw;
            KeptBetween(res, dst, uAt + m, uAt + n) && KeptBetween(res, dst, uAt + n + m, |dst|)
  {
    var m := rows * cw;
    PackedRowsFit(uAt, cw, rows, |dst|);
    PackedRowsFit(uAt + n, cw, rows, |dst|);
    RowAtIsProduct(uAt, cw, rows);
    RowAtIsProduct(uAt + n, cw, rows);
    var res := CopyChroma(dst, uAt, uAt + n, cw, src, srcU, srcV, srcStride, rows);
    CopyChromaOutside(dst, uAt, uAt + n, cw, src, srcU, srcV, srcStride, rows, uAt + m, n - m);
    CopyChromaOutside(dst, uAt, uAt + n, cw, src, srcU, srcV, srcStride, rows, uAt + n + m, n - m);
    assert Take(res, uAt + m, n - m) == Take(dst, uAt + m, n - m);
    assert Take(res, uAt + n + m, n - m) == Take(dst, uAt + n + m, n - m);
  }

  // ---------------------------------------------------------------------------
  // The frame copy

  /** The Y source rows (or the Y bulk block) the copy reads lie inside the source. */
  predicate YInBounds(f: Frame) {
    if f.width == f.strideY then Fits(|f.data|, f.offY, SizeY(f.width, f.height))
    else RowsFit(|f.data|, f.offY, f.strideY, f.width, f.height)
  }

  /** The U and V source rows (or bulk blocks) the copy reads lie inside the source. */
  predicate UVInBounds(f: Frame) {
    var cw := f.width / 2;
    if cw == f.strideUV then
      Fits(|f.data|, f.offU, SizeUV(f.width, f.height)) && Fits(|f.data|, f.offV, SizeUV(f.width, f.height))
    else
      RowsFit(|f.data|, f.offU, f.strideUV, cw, f.height / 2) &&
      RowsFit(|f.data|, f.offV, f.strideUV, cw, f.height / 2)
  }

  /**
    Every byte the copy reads exists.  updateFrame never checks this (the buffer
    length is not even passed to it), so callers must guarantee it.
  */
  predicate SourceInBounds(f: Frame) { YInBounds(f) && UVInBounds(f) }

  /** The store after the Y plane has been copied. */
  function PackY(s: seq<Byte>, f: Frame): (r: seq<Byte>)
    requires |s| == StoreSize(f.width, f.height) && YInBounds(f)
    ensures |r| == |s|
  {
    var w, h := f.width, f.height;
    if w == f.strideY then Splice(s, 0, Take(f.data, f.offY, SizeY(w, h)))
    else
      PackedRowsFit(0, w, h, |s|);
      CopyRows(s, 0, w, f.data, f.offY, f.strideY, w, h)
  }

  /** The chroma regions' rows fit in the store: U from m_sizeY, V from m_sizeY + m_sizeU. */
  lemma {:induction false} ChromaRowsFit(w: nat, h: nat, len: nat)
    requires len == StoreSize(w, h)
    ensures RowsFit(len, SizeY(w, h), w / 2, w / 2, h / 2)
    ensures RowsFit(len, SizeY(w, h) + SizeUV(w, h), w / 2, w / 2, h / 2)
  {
    ChromaFits(w, h);
    PackedRowsFit(SizeY(w, h), w / 2, h / 2, len);
    PackedRowsFit(SizeY(w, h) + SizeUV(w, h), w / 2, h / 2, len);
  }

  /** The store after the U and V planes have been copied. */
  function PackUV(s: seq<Byte>, f: Frame): (r: seq<Byte>)
    requires |s| == StoreSize(f.width, f.height) && UVInBounds(f)
    ensures |r| == |s|
  {
    var w, h := f.width, f.height;
    var sY, sU := SizeY(w, h), SizeUV(w, h);
    if w / 2 == f.strideUV then
      Splice(Splice(s, sY, Take(f.data, f.offU, sU)), sY + sU, Take(f.data, f.offV, sU))
    else
      ChromaRowsFit(w, h, |s|);
      CopyChroma(s, sY, sY + sU, w / 2, f.data, f.offU, f.offV, f.strideUV, h / 2)
  }

  /** The store updateFrame leaves behind, given the store s it wrote into. */
  function PackFrame(s: seq<Byte>, f: Frame): (r: seq<Byte>)
    requires |s| == StoreSize(f.width, f.height) && SourceInBounds(f)
    ensures |r| == |s|
  {
    PackUV(PackY(s, f), f)
  }

  /** The frame draw() builds from one contiguous buffer: strides (w, w/2), U at w*h, V at w*h*5/4. */
  function DrawFrame(buffer: seq<Byte>, w: nat, h: nat): Frame {
    Frame(w, h, w, w / 2, buffer, 0, w * h, w * h * 5 / 4)
  }

  // ---------------------------------------------------------------------------
  // Properties of the packed store

  /** The chroma copy, bulk or strided, leaves the Y region as the Y copy made it. */
  lemma {:induction false} PackUVKeepsY(s: seq<Byte>, f: Frame)
    requires |s| == StoreSize(f.width, f.height) && UVInBounds(f)
    ensures PackUV(s, f)[..SizeY(f.width, f.height)] == s[..SizeY(f.width, f.height)]
  {
    var w, h := f.width, f.height;
    var sY, sU := SizeY(w, h), SizeUV(w, h);
    if w / 2 != f.strideUV {
      ChromaRowsFit(w, h, |s|);
      CopyChromaOutside(s, sY, sY + sU, w / 2, f.data, f.offU, f.offV, f.strideUV, h / 2, 0, sY);
      assert Take(PackUV(s, f), 0, sY) == Take(s, 0, sY);
    }
  }

  /** Bulk Y (stride_y == width): the Y region is the first w*h bytes of the Y source, verbatim. */
  lemma {:induction false} PackFrameYBulk(s: seq<Byte>, f: Frame)
    requires |s| == StoreSize(f.width, f.height) && SourceInBounds(f)
    requires f.width == f.strideY
    ensures PackFrame(s, f)[..SizeY(f.width, f.height)] == Take(f.data, f.offY, SizeY(f.width, f.height))
  {
    PackUVKeepsY(PackY(s, f), f);
    assert PackY(s, f)[..SizeY(f.width, f.height)] == Take(f.data, f.offY, SizeY(f.width, f.height));
  }

  /** Strided Y: row r of the Y region (w bytes at r*w) is the w bytes of the source at offY + r*stride_y. */
  lemma {:induction false} PackFrameYRow(s: seq<Byte>, f: Frame, r: nat)
    requires |s| == StoreSize(f.width, f.height) && SourceInBounds(f)
    requires f.width != f.strideY && r < f.height
    ensures SameRange(PackFrame(s, f), RowStart(0, f.width, r), f.data, RowStart(f.offY, f.strideY, r), f.width)
  {
    var w, h := f.width, f.height;
    PackedRowsRow(s, w, h, f.data, f.offY, f.strideY, r);
    var y := PackY(s, f);
    PackUVKeepsY(y, f);
    TakeInPrefix(PackFrame(s, f), y, SizeY(w, h), RowStart(0, w, r), w);
  }

  /** Bulk chroma (stride_uv == width/2): U and V regions are the first w*h/4 bytes of their sources. */
  lemma {:induction false} PackFrameUVBulk(s: seq<Byte>, f: Frame)
    requires |s| == StoreSize(f.width, f.height) && SourceInBounds(f)
    requires f.width / 2 == f.strideUV
    ensures var sY, sU := SizeY(f.width, f.height), SizeUV(f.width, f.height);
            PackFrame(s, f)[sY..sY + sU] == Take(f.data, f.offU, sU) &&
            PackFrame(s, f)[sY + sU..sY + sU + sU] == Take(f.data, f.offV, sU)
  {
  }

  /** Strided chroma: row r < h/2 of each chroma region is w/2 bytes of its source at off + r*stride_uv. */
  lemma {:induction false} PackFrameUVRow(s: seq<Byte>, f: Frame, r: nat)
    requires |s| == StoreSize(f.width, f.height) && SourceInBounds(f)
    requires f.width / 2 != f.strideUV && r < f.height / 2
    ensures var sY, sU, cw := SizeY(f.width, f.height), SizeUV(f.width, f.height), f.width / 2;
            SameRange(PackFrame(s, f), RowStart(sY, cw, r), f.data, RowStart(f.offU, f.strideUV, r), cw) &&
            SameRange(PackFrame(s, f), RowStart(sY + sU, cw, r), f.data, RowStart(f.offV, f.strideUV, r), cw)
  {
    var w, h, cw := f.width, f.height, f.width / 2;
    var sY, sU := SizeY(w, h), SizeUV(w, h);
    ChromaFits(w, h);
    PackedChromaRow(PackY(s, f), sY, sU, cw, h / 2, f.data, f.offU, f.offV, f.strideUV, r);
  }

  /**
    Strided chroma writes stay inside their regions: the bytes of each chroma
    region past its (h/2)*(w/2) copied bytes keep what the Y copy left there.
  */
  lemma {:induction false} PackFrameChromaTails(s: seq<Byte>, f: Frame)
    requires |s| == StoreSize(f.width, f.height) && SourceInBounds(f)
    requires f.width / 2 != f.strideUV
    ensures var sY, sU, n := SizeY(f.width, f.height), SizeUV(f.width, f.height), (f.height / 2) * (f.width / 2);
            n <= sU &&
            KeptBetween(PackFrame(s, f), PackY(s, f), sY + n, sY + sU) &&
            KeptBetween(PackFrame(s, f), PackY(s, f), sY + sU + n, |s|)
  {
    var w, h, cw := f.width, f.height, f.width / 2;
    var sY, sU, n := SizeY(w, h), SizeUV(w, h), (h / 2) * cw;
    ChromaFits(w, h);
    PackedChromaTails(PackY(s, f), sY, sU, cw, h / 2, f.data, f.offU, f.offV, f.strideUV);
  }

  /** A buffer holding at least the w*h*3/2 bytes draw() reads satisfies the copy's bounds. */
  lemma {:induction false} DrawFrameInBounds(buffer: seq<Byte>, w: nat, h: nat)
    requires |buffer| >= StoreSize(w, h)
    ensures SourceInBounds(DrawFrame(buffer, w, h))
  {
    DrawOffsetsMatchLayout(w, h);
  }

  /**
    draw() takes both bulk branches, so the store becomes the buffer's leading
    Y|U|V bytes verbatim, whatever it held before.
  */
  lemma {:induction false} DrawPacksVerbatim(s: seq<Byte>, buffer: seq<Byte>, w: nat, h: nat)
    requires |s| == StoreSize(w, h) && |buffer| >= StoreSize(w, h)
    ensures SourceInBounds(DrawFrame(buffer, w, h))
    ensures PackFrame(s, DrawFrame(buffer, w, h)) == buffer[..StoreSize(w, h)]
  {
    DrawFrameInBounds(buffer, w, h);
    var f := DrawFrame(buffer, w, h);
    var sY, sU := SizeY(w, h), SizeUV(w, h);
    assert PackFrame(s, f) == Splice(Splice(Splice(s, 0, Take(buffer, 0, sY)), sY, Take(buffer, sY, sU)),
                                     sY + sU, Take(buffer, sY + sU, sU));
    ThreeCopiesVerbatim(s, buffer, sY, sU, sU);
  }

  // ---------------------------------------------------------------------------
  // The copy, as the renderers run it

  /** memcpy(dst + dstOff, src + srcOff, n). */
  method MemCpy(dst: array<Byte>, dstOff: nat, src: seq<Byte>, srcOff: nat, n: nat)
    requires Fits(dst.Length, dstOff, n) && Fits(|src|, srcOff, n)
    modifies dst
    ensures dst[..] == Splice(old(dst[..]), dstOff, Take(src, srcOff, n))
  {
    var i := 0;
    while i < n
      invariant 0 <= i <= n
      invariant forall k :: 0 <= k < dst.Length ==>
        dst[k] == if dstOff <= k < dstOff + i then src[srcOff + k - dstOff] else old(dst[k])
    {
      dst[dstOff + i] := src[srcOff + i];
      i := i + 1;
    }
  }

  /** The row loop as the code runs it: copy a row, advance both pointers by their strides. */
  method CopyRowsLoop(dst: array<Byte>, dstAt: nat, dstStride: nat,
                      src: seq<Byte>, srcAt: nat, srcStride: nat, width: nat, rows: nat)
    requires RowsFit(dst.Length, dstAt, dstStride, width, rows)
    requires RowsFit(|src|, srcAt, srcStride, width, rows)
    modifies dst
    ensures dst[..] == CopyRows(old(dst[..]), dstAt, dstStride, src, srcAt, srcStride, width, rows)
  {
    var pSrc: nat, pDst: nat := srcAt, dstAt;
    var row := 0;
    while row < rows
      invariant row <= rows
      invariant RowsFit(dst.Length, pDst, dstStride, width, rows - row)
      invariant RowsFit(|src|, pSrc, srcStride, width, rows - row)
      invariant CopyRows(dst[..], pDst, dstStride, src, pSrc, srcStride, width, rows - row)
             == CopyRows(old(dst[..]), dstAt, dstStride, src, srcAt, srcStride, width, rows)
    {
      MemCpy(dst, pDst, src, pSrc, width);
      pSrc := pSrc + srcStride;
      pDst := pDst + dstStride;
      row := row + 1;
    }
  }

  /** The chroma row loop: per iteration a U row, then a V row, then all four pointers advance. */
  method CopyChromaLoop(dst: array<Byte>, uAt: nat, vAt: nat, width: nat,
                        src: seq<Byte>, srcU: nat, srcV: nat, srcStride: nat, rows: nat)
    requires RowsFit(dst.Length, uAt, width, width, rows) && RowsFit(dst.Length, vAt, width, width, rows)
    requires RowsFit(|src|, srcU, srcStride, width, rows) && RowsFit(|src|, srcV, srcStride, width, rows)
    modifies dst
    ensures dst[..] == CopyChroma(old(dst[..]), uAt, vAt, width, src, srcU, srcV, srcStride, rows)
  {
    var pSrcU: nat, pSrcV: nat, pDstU: nat, pDstV: nat := srcU, srcV, uAt, vAt;
    var row := 0;
    while row < rows
      invariant row <= rows
      invariant RowsFit(dst.Length, pDstU, width, width, rows - row)
      invariant RowsFit(dst.Length, pDstV, width, width, rows - row)
      invariant RowsFit(|src|, pSrcU, srcStride, width, rows - row)
      invariant RowsFit(|src|, pSrcV, srcStride, width, rows - row)
      invariant CopyChroma(dst[..], pDstU, pDstV, width, src, pSrcU, pSrcV, srcStride, rows - row)
             == CopyChroma(old(dst[..]), uAt, vAt, width, src, srcU, srcV, srcStride, rows)
    {
      MemCpy(dst, pDstU, src, pSrcU, width);
      MemCpy(dst, pDstV, src, pSrcV, width);
      pDstU, pDstV := pDstU + width, pDstV + width;
      pSrcU, pSrcV := pSrcU + srcStride, pSrcV + srcStride;
      row := row + 1;
    }
  }

  /** The Y half of updateFrame's copy: one block when stride_y == width, else row by row. */
  method CopyLuma(store: array<Byte>, f: Frame)
    requires store.Length == StoreSize(f.width, f.height) && YInBounds(f)
    modifies store
    ensures store[..] == PackY(old(store[..]), f)
  {
    var w, h := f.width, f.height;
    if w == f.strideY {
      MemCpy(store, 0, f.data, f.offY, SizeY(w, h));
    } else {
      PackedRowsFit(0, w, h, store.Length);
      CopyRowsLoop(store, 0, w, f.data, f.offY, f.strideY, w, h);
    }
  }

  /**
    The U and V half of updateFrame's copy: one block each when stride_uv ==
    width/2, else h/2 iterations that each copy a U row and then a V row.
  */
  method CopyChromaPlanes(store: array<Byte>, f: Frame)
    requires store.Length == StoreSize(f.width, f.height) && UVInBounds(f)
    modifies store
    ensures store[..] == PackUV(old(store[..]), f)
  {
    var w, h := f.width, f.height;
    var sizeY, sizeU := SizeY(w, h), SizeUV(w, h);
    if w / 2 == f.strideUV {
      MemCpy(store, sizeY, f.data, f.offU, sizeU);
      MemCpy(store, sizeY + sizeU, f.data, f.offV, sizeU);
    } else {
      ChromaRowsFit(w, h, store.Length);
      CopyChromaLoop(store, sizeY, sizeY + sizeU, w / 2, f.data, f.offU, f.offV, f.strideUV, h / 2);
    }
  }

  /** The copy part of updateFrame: the Y plane, then the U and V planes. */
  method CopyPlanes(store: array<Byte>, f: Frame)
    requires store.Length == StoreSize(f.width, f.height) && SourceInBounds(f)
    modifies store
    ensures store[..] == PackFrame(old(store[..]), f)
  {
    CopyLuma(store, f);
    CopyChromaPlanes(store, f);
  }
}
