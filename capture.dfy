/**
  The two YUV_420_888 packers of the Java capture classes.

  A camera Image has three planes; each plane is modelled by the bytes its
  ByteBuffer has remaining (the buffer is read from position 0) and its row
  and pixel strides. A BufferUnderflowException or an
  ArrayIndexOutOfBoundsException ends the packer; the model returns None
  for it.

  The stride-aware packer (camera.preview) copies a plane whole when it is
  tightly packed, and otherwise byte by byte through a row array that keeps
  its contents between rows. Its last row reads only what the buffer still
  holds, so the bytes of the row array beyond that are left over from the
  row before (or are the zeros of the freshly allocated array).
*/
module Capture {
  import opened Wrappers
  import opened FrameCopy

  /** ImageFormat.getBitsPerPixel(YUV_420_888). */
  const BitsPerPixelYUV420888: nat := 12

  /** One Image.Plane: its buffer's remaining bytes, getRowStride() and getPixelStride(). */
  datatype Plane = Plane(buffer: seq<Byte>, rowStride: nat, pixelStride: nat)

  /** Plane 0 (Y) has the image's width; the chroma planes have half of it, rounded down. */
  function PlaneWidth(plane: nat, imageWidth: nat): nat { if plane == 0 then imageWidth else imageWidth / 2 }

  /** Plane 0 (Y) has the image's height; the chroma planes have half of it, rounded down. */
  function PlaneHeight(plane: nat, imageHeight: nat): nat { if plane == 0 then imageHeight else imageHeight / 2 }

  /** The length of the array the packer allocates: w * h * 12 / 8. */
  function DataSize(w: nat, h: nat): nat { w * h * BitsPerPixelYUV420888 / 8 }

  /** A freshly allocated Java byte array holds zeros. */
  function Zeros(n: nat): (z: seq<Byte>)
    ensures |z| == n
  {
    seq(n, _ => 0)
  }

  function Min(a: nat, b: nat): nat { if a < b then a else b }

  /** The fast path's test: no padding between pixels and none at the row ends. */
  predicate WholePlane(p: Plane, planeWidth: nat) { p.pixelStride == 1 && p.rowStride == planeWidth }

  /** Where column c sits in a row: c * pixelStride. */
  function Col(c: nat, pixelStride: nat): nat { c * pixelStride }

  /** Every column of a row of width planeWidth lies inside a row array of length n. */
  predicate ColumnsInRow(n: nat, pixelStride: nat, planeWidth: nat)
  {
    forall c: nat :: c < planeWidth ==> Col(c, pixelStride) < n
  }

  /** The column loop: byte c of the output row is rowData[c * pixelStride]. */
  function Gather(rowData: seq<Byte>, pixelStride: nat, planeWidth: nat): (r: seq<Byte>)
    requires ColumnsInRow(|rowData|, pixelStride, planeWidth)
    ensures |r| == planeWidth
  {
    seq(planeWidth, c requires 0 <= c < planeWidth => rowData[Col(c, pixelStride)])
  }

  /** The strided copy between rows: bytes written so far, buffer position, row array contents. */
  datatype RowState = RowState(out: seq<Byte>, pos: nat, rowData: seq<Byte>)

  /**
    `rows` passes of the full-row loop: read rowStride bytes into the row
    array (underflow when fewer remain), then gather the row's columns
    (out of bounds when a column lies beyond the row array).
  */
  function FullRows(p: Plane, planeWidth: nat, rows: nat, st: RowState): (r: Option<RowState>)
    requires st.pos <= |p.buffer| && |st.rowData| == p.rowStride
    ensures r.Some? ==> r.value.pos <= |p.buffer| && |r.value.rowData| == p.rowStride
    decreases rows
  {
    if rows == 0 then Some(st)
    else if st.pos + p.rowStride > |p.buffer| || !ColumnsInRow(p.rowStride, p.pixelStride, planeWidth) then None
    else
      var rowData := Take(p.buffer, st.pos, p.rowStride);
      FullRows(p, planeWidth, rows - 1,
               RowState(st.out + Gather(rowData, p.pixelStride, planeWidth), st.pos + p.rowStride, rowData))
  }

  /**
    The last row: only min(rowStride, remaining) bytes are read over the
    front of the row array, the rest of it keeps what it held.
  */
  function LastRow(p: Plane, planeWidth: nat, st: RowState): Option<seq<Byte>>
    requires st.pos <= |p.buffer| && |st.rowData| == p.rowStride
  {
    var n := Min(p.rowStride, |p.buffer| - st.pos);
    if ColumnsInRow(p.rowStride, p.pixelStride, planeWidth) then
      Some(st.out + Gather(Splice(st.rowData, 0, Take(p.buffer, st.pos, n)), p.pixelStride, planeWidth))
    else None
  }

  /** How often the full-row loop runs: `row < planeHeight - 1` on Java ints. */
  function FullRowCount(planeHeight: nat): nat { if planeHeight == 0 then 0 else planeHeight - 1 }

  /** The bytes the strided path writes for a plane, or None when it throws. */
  function StridedPlane(p: Plane, planeWidth: nat, planeHeight: nat): Option<seq<Byte>>
  {
    match FullRows(p, planeWidth, FullRowCount(planeHeight), RowState([], 0, Zeros(p.rowStride)))
    case None => None
    case Some(st) => LastRow(p, planeWidth, st)
  }

  /** The bytes written for a plane: the whole-plane bulk get, or the strided path. */
  function PlaneBytes(p: Plane, planeWidth: nat, planeHeight: nat): Option<seq<Byte>>
  {
    if WholePlane(p, planeWidth) then
      (if planeWidth * planeHeight <= |p.buffer| then Some(Take(p.buffer, 0, planeWidth * planeHeight)) else None)
    else StridedPlane(p, planeWidth, planeHeight)
  }

  /** The bytes written by the first n planes, back to back, or None when one of them throws. */
  function Written(planes: seq<Plane>, w: nat, h: nat, n: nat): Option<seq<Byte>>
    requires n <= |planes|
  {
    if n == 0 then Some([])
    else match Written(planes, w, h, n - 1)
      case None => None
      case Some(acc) =>
        match PlaneBytes(planes[n - 1], PlaneWidth(n - 1, w), PlaneHeight(n - 1, h))
        case None => None
        case Some(bytes) => Some(acc + bytes)
  }

  /**
    YUV_420_888_data (camera.preview): the planes' bytes at the front of the
    zeroed array of DataSize(w, h) bytes, or None when a plane throws or the
    bytes do not fit the array.
  */
  function PackedImage(planes: seq<Plane>, w: nat, h: nat): Option<seq<Byte>>
  {
    match Written(planes, w, h, |planes|)
    case None => None
    case Some(out) => if |out| <= DataSize(w, h) then Some(out + Zeros(DataSize(w, h) - |out|)) else None
  }

  // ---------------------------------------------------------------------------
  // What the strided path writes

  /** After k full rows: the position has advanced k strides, k rows were appended, and the row array holds the last row read. */
  lemma {:induction false} FullRowsShape(p: Plane, planeWidth: nat, k: nat, st: RowState)
    requires st.pos <= |p.buffer| && |st.rowData| == p.rowStride
    requires FullRows(p, planeWidth, k, st).Some?
    ensures var st' := FullRows(p, planeWidth, k, st).value;
            st'.pos == RowAt(st.pos, p.rowStride, k) &&
            |st'.out| == RowAt(|st.out|, planeWidth, k) &&
            |st.out| <= |st'.out| && st'.out[..|st.out|] == st.out &&
            (k == 0 ==> st' == st) &&
            (k > 0 ==> RowAt(st.pos, p.rowStride, k - 1) + p.rowStride <= |p.buffer| &&
                       st'.rowData == Take(p.buffer, RowAt(st.pos, p.rowStride, k - 1), p.rowStride))
    decreases k
  {
    if k > 0 {
      var rowData := Take(p.buffer, st.pos, p.rowStride);
      var st1 := RowState(st.out + Gather(rowData, p.pixelStride, planeWidth), st.pos + p.rowStride, rowData);
      FullRowsShape(p, planeWidth, k - 1, st1);
      var st' := FullRows(p, planeWidth, k, st).value;
      assert st'.out[..|st1.out|] == st1.out;
      assert st'.out[..|st.out|] == st'.out[..|st1.out|][..|st.out|];
    }
  }

  /** Full row i (i < k) of the passes lands at row i of the output: the gather of the rowStride bytes at row i of the buffer. */
  lemma {:induction false} FullRowsRow(p: Plane, planeWidth: nat, k: nat, st: RowState, i: nat)
    requires st.pos <= |p.buffer| && |st.rowData| == p.rowStride
    requires FullRows(p, planeWidth, k, st).Some? && i < k
    ensures var st' := FullRows(p, planeWidth, k, st).value;
            ColumnsInRow(p.rowStride, p.pixelStride, planeWidth) &&
            RowAt(st.pos, p.rowStride, i) + p.rowStride <= |p.buffer| &&
            RowAt(|st.out|, planeWidth, i) + planeWidth <= |st'.out| &&
            Take(st'.out, RowAt(|st.out|, planeWidth, i), planeWidth)
              == Gather(Take(p.buffer, RowAt(st.pos, p.rowStride, i), p.rowStride), p.pixelStride, planeWidth)
    decreases k
  {
    var rowData := Take(p.buffer, st.pos, p.rowStride);
    var st1 := RowState(st.out + Gather(rowData, p.pixelStride, planeWidth), st.pos + p.rowStride, rowData);
    var st' := FullRows(p, planeWidth, k, st).value;
    FullRowsShape(p, planeWidth, k - 1, st1);
    if i == 0 {
      assert st1.out[|st.out|..] == Gather(rowData, p.pixelStride, planeWidth);
      assert Take(st'.out, |st.out|, planeWidth) == st'.out[..|st1.out|][|st.out|..];
    } else {
      FullRowsRow(p, planeWidth, k - 1, st1, i - 1);
      assert RowAt(st.pos, p.rowStride, i) == RowAt(st1.pos, p.rowStride, i - 1);
      assert RowAt(|st.out|, planeWidth, i) == RowAt(|st1.out|, planeWidth, i - 1);
    }
  }

  /** The full-row passes succeed exactly when every column lies inside a row and the buffer holds all k strides. */
  lemma {:induction false} FullRowsSucceed(p: Plane, planeWidth: nat, k: nat, st: RowState)
    requires st.pos <= |p.buffer| && |st.rowData| == p.rowStride
    ensures FullRows(p, planeWidth, k, st).Some? <==>
            k == 0 || (ColumnsInRow(p.rowStride, p.pixelStride, planeWidth) && RowAt(st.pos, p.rowStride, k) <= |p.buffer|)
    decreases k
  {
    if k > 1 {
      if st.pos + p.rowStride <= |p.buffer| && ColumnsInRow(p.rowStride, p.pixelStride, planeWidth) {
        var rowData := Take(p.buffer, st.pos, p.rowStride);
        var st1 := RowState(st.out + Gather(rowData, p.pixelStride, planeWidth), st.pos + p.rowStride, rowData);
        FullRowsSucceed(p, planeWidth, k - 1, st1);
      } else {
        RowAtAtLeast(st.pos + p.rowStride, p.rowStride, k - 1);
      }
    }
  }

  /**
    The strided path throws exactly when a column lies outside the row
    array or the buffer lacks one of the full strides before the last row:
    the last row itself needs no bytes in the buffer.
  */
  lemma {:induction false} StridedPlaneSucceeds(p: Plane, planeWidth: nat, planeHeight: nat)
    ensures StridedPlane(p, planeWidth, planeHeight).Some? <==>
            ColumnsInRow(p.rowStride, p.pixelStride, planeWidth) &&
            FullRowCount(planeHeight) * p.rowStride <= |p.buffer|
  {
    FullRowsSucceed(p, planeWidth, FullRowCount(planeHeight), RowState([], 0, Zeros(p.rowStride)));
    RowAtIsProduct(0, p.rowStride, FullRowCount(planeHeight));
  }

  /**
    The strided path writes FullRowCount(planeHeight) + 1 rows of planeWidth
    bytes: planeHeight rows, except that a plane of height 0 still gets its
    one last row.
  */
  lemma {:induction false} StridedPlaneLength(p: Plane, planeWidth: nat, planeHeight: nat)
    requires StridedPlane(p, planeWidth, planeHeight).Some?
    ensures |StridedPlane(p, planeWidth, planeHeight).value| == (FullRowCount(planeHeight) + 1) * planeWidth
    ensures planeHeight > 0 ==> |StridedPlane(p, planeWidth, planeHeight).value| == planeWidth * planeHeight
  {
    var k := FullRowCount(planeHeight);
    FullRowsShape(p, planeWidth, k, RowState([], 0, Zeros(p.rowStride)));
    RowAtIsProduct(0, planeWidth, k);
  }

  /**
    Output byte (row r, column c) of the strided path is buffer byte
    r * rowStride + c * pixelStride whenever the buffer holds that byte:
    always in the full rows, and in the last row as far as the buffer reaches.
  */
  lemma {:induction false} StridedPlanePixel(p: Plane, planeWidth: nat, planeHeight: nat, r: nat, c: nat)
    requires StridedPlane(p, planeWidth, planeHeight).Some?
    requires r <= FullRowCount(planeHeight) && c < planeWidth
    requires RowStart(0, p.rowStride, r) + Col(c, p.pixelStride) < |p.buffer|
    ensures RowStart(0, planeWidth, r) + c < |StridedPlane(p, planeWidth, planeHeight).value|
    ensures StridedPlane(p, planeWidth, planeHeight).value[RowStart(0, planeWidth, r) + c]
            == p.buffer[RowStart(0, p.rowStride, r) + Col(c, p.pixelStride)]
  {
    if r < FullRowCount(planeHeight) {
      FullRowPixel(p, planeWidth, planeHeight, r, c);
    } else {
      LastRowPixel(p, planeWidth, planeHeight, c);
    }
  }

  /** StridedPlanePixel for a full row. */
  lemma {:induction false} FullRowPixel(p: Plane, planeWidth: nat, planeHeight: nat, r: nat, c: nat)
    requires StridedPlane(p, planeWidth, planeHeight).Some?
    requires r < FullRowCount(planeHeight) && c < planeWidth
    ensures RowStart(0, planeWidth, r) + c < |StridedPlane(p, planeWidth, planeHeight).value|
    ensures RowStart(0, p.rowStride, r) + Col(c, p.pixelStride) < |p.buffer|
    ensures StridedPlane(p, planeWidth, planeHeight).value[RowStart(0, planeWidth, r) + c]
            == p.buffer[RowStart(0, p.rowStride, r) + Col(c, p.pixelStride)]
  {
    var k := FullRowCount(planeHeight);
    var start := RowState([], 0, Zeros(p.rowStride));
    var st' := FullRows(p, planeWidth, k, start).value;
    FullRowsShape(p, planeWidth, k, start);
    RowAtIsProduct(0, planeWidth, r);
    RowAtIsProduct(0, p.rowStride, r);
    var out := StridedPlane(p, planeWidth, planeHeight).value;
    var n := Min(p.rowStride, |p.buffer| - st'.pos);
    assert out == st'.out + Gather(Splice(st'.rowData, 0, Take(p.buffer, st'.pos, n)), p.pixelStride, planeWidth);
    FullRowsRow(p, planeWidth, k, start, r);
    RowAtOrdered(0, planeWidth, r, k);
    assert Col(c, p.pixelStride) < p.rowStride;
    TakeAt(p.buffer, RowAt(0, p.rowStride, r), p.rowStride, Col(c, p.pixelStride));
    TakeAt(st'.out, RowAt(0, planeWidth, r), planeWidth, c);
    assert out[RowAt(0, planeWidth, r) + c] == st'.out[RowAt(0, planeWidth, r) + c];
  }

  /** StridedPlanePixel for the last row, where the buffer holds the byte. */
  lemma {:induction false} LastRowPixel(p: Plane, planeWidth: nat, planeHeight: nat, c: nat)
    requires StridedPlane(p, planeWidth, planeHeight).Some? && c < planeWidth
    requires RowStart(0, p.rowStride, FullRowCount(planeHeight)) + Col(c, p.pixelStride) < |p.buffer|
    ensures RowStart(0, planeWidth, FullRowCount(planeHeight)) + c < |StridedPlane(p, planeWidth, planeHeight).value|
    ensures StridedPlane(p, planeWidth, planeHeight).value[RowStart(0, planeWidth, FullRowCount(planeHeight)) + c]
            == p.buffer[RowStart(0, p.rowStride, FullRowCount(planeHeight)) + Col(c, p.pixelStride)]
  {
    var k := FullRowCount(planeHeight);
    var start := RowState([], 0, Zeros(p.rowStride));
    var st' := FullRows(p, planeWidth, k, start).value;
    FullRowsShape(p, planeWidth, k, start);
    RowAtIsProduct(0, planeWidth, k);
    RowAtIsProduct(0, p.rowStride, k);
    var n := Min(p.rowStride, |p.buffer| - st'.pos);
    assert StridedPlane(p, planeWidth, planeHeight).value
           == st'.out + Gather(Splice(st'.rowData, 0, Take(p.buffer, st'.pos, n)), p.pixelStride, planeWidth);
    assert Col(c, p.pixelStride) < p.rowStride;
    assert Col(c, p.pixelStride) < n;
    SpliceAt(st'.rowData, 0, Take(p.buffer, st'.pos, n), Col(c, p.pixelStride));
    TakeAt(p.buffer, st'.pos, n, Col(c, p.pixelStride));
  }

  /**
    Where the last row runs past the end of the buffer, its bytes are stale:
    the same column of the row before, or 0 when there is no row before.
  */
  lemma {:induction false} StridedPlaneStaleTail(p: Plane, planeWidth: nat, planeHeight: nat, c: nat)
    requires StridedPlane(p, planeWidth, planeHeight).Some? && c < planeWidth
    requires RowStart(0, p.rowStride, FullRowCount(planeHeight)) + Col(c, p.pixelStride) >= |p.buffer|
    ensures var k := FullRowCount(planeHeight);
            RowStart(0, planeWidth, k) + c < |StridedPlane(p, planeWidth, planeHeight).value| &&
            (k > 0 ==> RowStart(0, p.rowStride, k - 1) + Col(c, p.pixelStride) < |p.buffer|) &&
            StridedPlane(p, planeWidth, planeHeight).value[RowStart(0, planeWidth, k) + c]
              == if k == 0 then 0 else p.buffer[RowStart(0, p.rowStride, k - 1) + Col(c, p.pixelStride)]
  {
    var k := FullRowCount(planeHeight);
    var start := RowState([], 0, Zeros(p.rowStride));
    var st' := FullRows(p, planeWidth, k, start).value;
    FullRowsShape(p, planeWidth, k, start);
    RowAtIsProduct(0, planeWidth, k);
    RowAtIsProduct(0, p.rowStride, k);
    var n := Min(p.rowStride, |p.buffer| - st'.pos);
    assert Col(c, p.pixelStride) < p.rowStride;
    SpliceAt(st'.rowData, 0, Take(p.buffer, st'.pos, n), Col(c, p.pixelStride));
    if k > 0 {
      RowAtIsProduct(0, p.rowStride, k - 1);
      TakeAt(p.buffer, RowAt(0, p.rowStride, k - 1), p.rowStride, Col(c, p.pixelStride));
    }
  }

  /** With no padding, every full-row pass appends exactly the next rowStride bytes of the buffer. */
  lemma {:induction false} FullRowsVerbatim(p: Plane, planeWidth: nat, k: nat, st: RowState)
    requires st.pos <= |p.buffer| && |st.rowData| == p.rowStride
    requires WholePlane(p, planeWidth) && st.out == p.buffer[..st.pos]
    requires FullRows(p, planeWidth, k, st).Some?
    ensures FullRows(p, planeWidth, k, st).value.out == p.buffer[..FullRows(p, planeWidth, k, st).value.pos]
    decreases k
  {
    if k > 0 {
      var rowData := Take(p.buffer, st.pos, p.rowStride);
      assert Gather(rowData, p.pixelStride, planeWidth) == rowData;
      assert p.buffer[..st.pos] + rowData == p.buffer[..st.pos + p.rowStride];
      var st1 := RowState(st.out + Gather(rowData, p.pixelStride, planeWidth), st.pos + p.rowStride, rowData);
      FullRowsVerbatim(p, planeWidth, k - 1, st1);
    }
  }

  /**
    The fast path is a shortcut: for a plane without padding that holds
    all its rows and has at least one, the strided path would write the
    same bytes as the bulk get.
  */
  lemma {:induction false} WholePlaneShortcut(p: Plane, planeWidth: nat, planeHeight: nat)
    requires WholePlane(p, planeWidth) && planeHeight > 0 && planeWidth * planeHeight <= |p.buffer|
    ensures StridedPlane(p, planeWidth, planeHeight) == PlaneBytes(p, planeWidth, planeHeight)
  {
    var k := FullRowCount(planeHeight);
    var start := RowState([], 0, Zeros(p.rowStride));
    assert k * planeWidth + planeWidth == planeWidth * planeHeight;
    assert ColumnsInRow(p.rowStride, p.pixelStride, planeWidth);
    StridedPlaneSucceeds(p, planeWidth, planeHeight);
    FullRowsShape(p, planeWidth, k, start);
    FullRowsVerbatim(p, planeWidth, k, start);
    RowAtIsProduct(0, p.rowStride, k);
    var st' := FullRows(p, planeWidth, k, start).value;
    var n := Min(p.rowStride, |p.buffer| - st'.pos);
    assert n == planeWidth;
    var last := Splice(st'.rowData, 0, Take(p.buffer, st'.pos, n));
    assert last == Take(p.buffer, st'.pos, n);
    assert Gather(last, p.pixelStride, planeWidth) == last;
    assert st'.out + last == p.buffer[..planeWidth * planeHeight];
  }

  // ---------------------------------------------------------------------------
  // The whole image

  /** A plane whose strided path throws, or bytes past the array, make the whole packer throw. */
  lemma {:induction false} WrittenPrefix(planes: seq<Plane>, w: nat, h: nat, m: nat, n: nat)
    requires m <= n <= |planes| && Written(planes, w, h, n).Some?
    ensures Written(planes, w, h, m).Some? && |Written(planes, w, h, m).value| <= |Written(planes, w, h, n).value|
    decreases n
  {
    if m < n {
      WrittenPrefix(planes, w, h, m, n - 1);
    }
  }

  /** Once the first n planes throw or overflow the array, so does the packer. */
  lemma {:induction false} FailureSticks(planes: seq<Plane>, w: nat, h: nat, n: nat)
    requires n <= |planes|
    requires Written(planes, w, h, n).None? || |Written(planes, w, h, n).value| > DataSize(w, h)
    ensures PackedImage(planes, w, h).None?
  {
    if Written(planes, w, h, |planes|).Some? {
      WrittenPrefix(planes, w, h, n, |planes|);
    }
  }

  /** The Y, U and V sizes never exceed the array: w * h + 2 * (w / 2) * (h / 2) <= w * h * 12 / 8. */
  lemma {:induction false} PlanesFitData(w: nat, h: nat)
    ensures w * h + 2 * ((w / 2) * (h / 2)) <= DataSize(w, h)
  {
    ChromaFits(w, h);
    var n := w * h;
    assert n * 12 == 8 * n + 4 * n;
    assert n * 12 / 8 == n + n / 2;
  }

  /**
    With three planes that do not throw, each writing planeWidth *
    planeHeight bytes (a whole plane, or a strided one of height at least
    1), the packed image is Y, then U, then V, with no gaps, followed by the
    zeros the array was allocated with.
  */
  lemma {:induction false} ImageLayout(planes: seq<Plane>, w: nat, h: nat)
    requires |planes| == 3
    requires forall i :: 0 <= i < 3 ==> PlaneBytes(planes[i], PlaneWidth(i, w), PlaneHeight(i, h)).Some?
    requires forall i :: 0 <= i < 3 ==> WholePlane(planes[i], PlaneWidth(i, w)) || PlaneHeight(i, h) > 0
    ensures var y := PlaneBytes(planes[0], PlaneWidth(0, w), PlaneHeight(0, h)).value;
            var u := PlaneBytes(planes[1], PlaneWidth(1, w), PlaneHeight(1, h)).value;
            var v := PlaneBytes(planes[2], PlaneWidth(2, w), PlaneHeight(2, h)).value;
            |y| == w * h && |u| == (w / 2) * (h / 2) && |v| == (w / 2) * (h / 2) &&
            |y| + |u| + |v| <= DataSize(w, h) &&
            PackedImage(planes, w, h) == Some(y + u + v + Zeros(DataSize(w, h) - (|y| + |u| + |v|)))
  {
    forall i | 0 <= i < 3
      ensures |PlaneBytes(planes[i], PlaneWidth(i, w), PlaneHeight(i, h)).value| == PlaneWidth(i, w) * PlaneHeight(i, h)
    {
      if !WholePlane(planes[i], PlaneWidth(i, w)) {
        StridedPlaneLength(planes[i], PlaneWidth(i, w), PlaneHeight(i, h));
      }
    }
    PlanesFitData(w, h);
    var y := PlaneBytes(planes[0], PlaneWidth(0, w), PlaneHeight(0, h)).value;
    var u := PlaneBytes(planes[1], PlaneWidth(1, w), PlaneHeight(1, h)).value;
    var v := PlaneBytes(planes[2], PlaneWidth(2, w), PlaneHeight(2, h)).value;
    assert Written(planes, w, h, 1) == Some([] + y);
    assert [] + y == y;
    assert Written(planes, w, h, 3) == Some(y + u + v);
  }

  /**
    For even dimensions and tightly packed planes whose buffers hold exactly
    their plane, the stride-aware packer and the concatenating one agree:
    the array is full and holds the three buffers back to back.
  */
  lemma {:induction false} PackersAgree(planes: seq<Plane>, w: nat, h: nat)
    requires |planes| == 3 && w % 2 == 0 && h % 2 == 0
    requires forall i :: 0 <= i < 3 ==> WholePlane(planes[i], PlaneWidth(i, w))
    requires forall i :: 0 <= i < 3 ==> |planes[i].buffer| == PlaneWidth(i, w) * PlaneHeight(i, h)
    ensures PackedImage(planes, w, h) == Some(planes[0].buffer + planes[1].buffer + planes[2].buffer)
  {
    forall i | 0 <= i < 3
      ensures PlaneBytes(planes[i], PlaneWidth(i, w), PlaneHeight(i, h)) == Some(planes[i].buffer)
    {
      assert Take(planes[i].buffer, 0, |planes[i].buffer|) == planes[i].buffer;
    }
    var a, b := w / 2, h / 2;
    assert w * h == 4 * (a * b) by {
      assert w == 2 * a && h == 2 * b;
    }
    assert DataSize(w, h) == w * h + 2 * (a * b) by {
      var n := a * b;
      assert w * h * 12 == 48 * n;
    }
    assert Written(planes, w, h, 1) == Some([] + planes[0].buffer);
    assert [] + planes[0].buffer == planes[0].buffer;
    var all := planes[0].buffer + planes[1].buffer + planes[2].buffer;
    assert Written(planes, w, h, 3) == Some(all);
    assert all + Zeros(0) == all;
  }

  // ---------------------------------------------------------------------------
  // The packers as the code runs them

  /** Writing p at `at`, then q right after it, writes p + q at `at`. */
  lemma {:induction false} SpliceAppend(s: seq<Byte>, at: nat, p: seq<Byte>, q: seq<Byte>)
    requires Fits(|s|, at, |p| + |q|)
    ensures Splice(Splice(s, at, p), at + |p|, q) == Splice(s, at, p + q)
  {
    forall k | 0 <= k < |s|
      ensures Splice(Splice(s, at, p), at + |p|, q)[k] == Splice(s, at, p + q)[k]
    {
      SpliceAt(s, at, p, k);
      SpliceAt(Splice(s, at, p), at + |p|, q, k);
      SpliceAt(s, at, p + q, k);
    }
  }

  /** out written at the front of a zeroed array leaves the zeros after it. */
  lemma {:induction false} SpliceIntoZeros(n: nat, out: seq<Byte>)
    requires |out| <= n
    ensures Splice(Zeros(n), 0, out) == out + Zeros(n - |out|)
  {
    forall k | 0 <= k < n
      ensures Splice(Zeros(n), 0, out)[k] == (out + Zeros(n - |out|))[k]
    {
      SpliceAt(Zeros(n), 0, out, k);
    }
  }

  /** A copy over the whole of an array is the copied bytes. */
  lemma {:induction false} SpliceWhole(s: seq<Byte>, piece: seq<Byte>)
    requires |piece| == |s|
    ensures Splice(s, 0, piece) == piece
  {
    forall k | 0 <= k < |s|
      ensures Splice(s, 0, piece)[k] == piece[k]
    {
      SpliceAt(s, 0, piece, k);
    }
  }

  /**
    The column loop `data[offset++] = rowData[col * pixelStride]`: it throws
    when a column lies beyond the row array or the data array is full, and
    otherwise writes the gathered row at offset.
  */
  method WriteColumns(data: array<Byte>, offset: nat, rowData: array<Byte>, pixelStride: nat, planeWidth: nat)
    returns (ok: bool, next: nat)
    requires data != rowData && offset <= data.Length
    modifies data
    ensures ok <==> ColumnsInRow(rowData.Length, pixelStride, planeWidth) && offset + planeWidth <= data.Length
    ensures ok ==> next == offset + planeWidth &&
                   data[..] == Splice(old(data[..]), offset, Gather(rowData[..], pixelStride, planeWidth))
  {
    var col := 0;
    while col < planeWidth
      invariant col <= planeWidth && offset + col <= data.Length
      invariant forall c: nat :: c < col ==> Col(c, pixelStride) < rowData.Length
      invariant forall k :: 0 <= k < data.Length ==>
        data[k] == if offset <= k < offset + col then rowData[Col(k - offset, pixelStride)] else old(data[k])
    {
      var index := Col(col, pixelStride);
      if index >= rowData.Length || offset + col >= data.Length {
        return false, offset;
      }
      data[offset + col] := rowData[index];
      col := col + 1;
    }
    ok, next := true, offset + planeWidth;
    var row := Gather(rowData[..], pixelStride, planeWidth);
    forall k | 0 <= k < data.Length
      ensures data[k] == Splice(old(data[..]), offset, row)[k]
    {
      SpliceAt(old(data[..]), offset, row, k);
    }
  }

  /**
    The full-row loop of the strided path: planeHeight - 1 times, a bulk get
    of rowStride bytes into the row array, then the column loop.
  */
  method CopyFullRows(data: array<Byte>, offset: nat, p: Plane, planeWidth: nat, rows: nat, rowData: array<Byte>)
    returns (ok: bool, next: nat, pos: nat, ghost out: seq<Byte>)
    requires data != rowData && offset <= data.Length && rowData.Length == p.rowStride
    modifies data, rowData
    ensures var st := FullRows(p, planeWidth, rows, RowState([], 0, old(rowData[..])));
            (ok ==> st == Some(RowState(out, pos, rowData[..])) && next == offset + |out| && next <= data.Length &&
                    data[..] == Splice(old(data[..]), offset, out)) &&
            (!ok ==> st.None? || offset + |st.value.out| > data.Length)
  {
    ghost var start := RowState([], 0, rowData[..]);
    pos := 0;
    next := offset;
    out := [];
    var row: nat := 0;
    while row < rows
      invariant row <= rows && pos <= |p.buffer| && rowData.Length == p.rowStride
      invariant next == offset + |out| && next <= data.Length
      invariant data[..] == Splice(old(data[..]), offset, out)
      invariant FullRows(p, planeWidth, rows, start) == FullRows(p, planeWidth, rows - row, RowState(out, pos, rowData[..]))
    {
      if pos + p.rowStride > |p.buffer| {
        return false, offset, pos, out;
      }
      ghost var previous := rowData[..];
      MemCpy(rowData, 0, p.buffer, pos, p.rowStride);
      SpliceWhole(previous, Take(p.buffer, pos, p.rowStride));
      var wrote;
      ok, wrote := WriteColumns(data, next, rowData, p.pixelStride, planeWidth);
      if !ok {
        if ColumnsInRow(p.rowStride, p.pixelStride, planeWidth) {
          var st1 := RowState(out + Gather(rowData[..], p.pixelStride, planeWidth), pos + p.rowStride, rowData[..]);
          if FullRows(p, planeWidth, rows - row - 1, st1).Some? {
            FullRowsShape(p, planeWidth, rows - row - 1, st1);
          }
        }
        return false, offset, pos, out;
      }
      SpliceAppend(old(data[..]), offset, out, Gather(rowData[..], p.pixelStride, planeWidth));
      out := out + Gather(rowData[..], p.pixelStride, planeWidth);
      next := wrote;
      pos := pos + p.rowStride;
      row := row + 1;
    }
    ok := true;
  }

  /**
    The strided path of YUV_420_888_data for one plane, into data at offset:
    a zeroed row array of rowStride bytes, planeHeight - 1 full rows, then
    the last row from what remains.
  */
  method CopyStridedPlane(data: array<Byte>, offset: nat, p: Plane, planeWidth: nat, planeHeight: nat)
    returns (ok: bool, next: nat)
    requires offset <= data.Length
    modifies data
    ensures ok ==> StridedPlane(p, planeWidth, planeHeight).Some? &&
                   next == offset + |StridedPlane(p, planeWidth, planeHeight).value| && next <= data.Length &&
                   data[..] == Splice(old(data[..]), offset, StridedPlane(p, planeWidth, planeHeight).value)
    ensures !ok ==> StridedPlane(p, planeWidth, planeHeight).None? ||
                    offset + |StridedPlane(p, planeWidth, planeHeight).value| > data.Length
  {
    var rowData := new Byte[p.rowStride](_ => 0);
    assert rowData[..] == Zeros(p.rowStride);
    var fullRows := if planeHeight == 0 then 0 else planeHeight - 1;
    var pos;
    ghost var out;
    ok, next, pos, out := CopyFullRows(data, offset, p, planeWidth, fullRows, rowData);
    if !ok {
      return false, offset;
    }
    // The last row: only min(rowStride, remaining) bytes are read.
    var n := Min(p.rowStride, |p.buffer| - pos);
    MemCpy(rowData, 0, p.buffer, pos, n);
    var wrote;
    ok, wrote := WriteColumns(data, next, rowData, p.pixelStride, planeWidth);
    if !ok {
      return false, offset;
    }
    SpliceAppend(old(data[..]), offset, out, Gather(rowData[..], p.pixelStride, planeWidth));
    next := wrote;
  }

  /** One plane of YUV_420_888_data: the bulk get when the plane is tightly packed, the strided path otherwise. */
  method CopyPlane(data: array<Byte>, offset: nat, p: Plane, planeWidth: nat, planeHeight: nat)
    returns (ok: bool, next: nat)
    requires offset <= data.Length
    modifies data
    ensures ok ==> PlaneBytes(p, planeWidth, planeHeight).Some? &&
                   next == offset + |PlaneBytes(p, planeWidth, planeHeight).value| && next <= data.Length &&
                   data[..] == Splice(old(data[..]), offset, PlaneBytes(p, planeWidth, planeHeight).value)
    ensures !ok ==> PlaneBytes(p, planeWidth, planeHeight).None? ||
                    offset + |PlaneBytes(p, planeWidth, planeHeight).value| > data.Length
  {
    if p.pixelStride == 1 && p.rowStride == planeWidth {
      var n := planeWidth * planeHeight;
      if n > |p.buffer| || offset + n > data.Length {
        return false, offset;
      }
      MemCpy(data, offset, p.buffer, 0, n);
      return true, offset + n;
    }
    ok, next := CopyStridedPlane(data, offset, p, planeWidth, planeHeight);
  }

  /** One turn of the plane loop of YUV_420_888_data: the next plane goes after the bytes already packed. */
  method PackPlane(data: array<Byte>, offset: nat, planes: seq<Plane>, w: nat, h: nat, plane: nat, ghost acc: seq<Byte>)
    returns (ok: bool, next: nat, ghost acc': seq<Byte>)
    requires plane < |planes| && data.Length == DataSize(w, h)
    requires Written(planes, w, h, plane) == Some(acc) && offset == |acc| <= data.Length
    requires data[..] == Splice(Zeros(data.Length), 0, acc)
    modifies data
    ensures ok ==> Written(planes, w, h, plane + 1) == Some(acc') && next == |acc'| <= data.Length &&
                   data[..] == Splice(Zeros(data.Length), 0, acc')
    ensures !ok ==> PackedImage(planes, w, h).None?
  {
    var planeWidth := PlaneWidth(plane, w);
    var planeHeight := PlaneHeight(plane, h);
    ok, next := CopyPlane(data, offset, planes[plane], planeWidth, planeHeight);
    if !ok {
      FailureSticks(planes, w, h, plane + 1);
      return false, offset, acc;
    }
    SpliceAppend(Zeros(data.Length), 0, acc, PlaneBytes(planes[plane], planeWidth, planeHeight).value);
    acc' := acc + PlaneBytes(planes[plane], planeWidth, planeHeight).value;
  }

  /**
    YUV_420_888_data (camera.preview): allocate w * h * 12 / 8 zeroed bytes
    and pack the planes one after the other from offset 0; None when it throws.
  */
  method YUV420888Data(planes: seq<Plane>, w: nat, h: nat) returns (r: Option<seq<Byte>>)
    ensures r == PackedImage(planes, w, h)
  {
    var size := DataSize(w, h);
    var data := new Byte[size](_ => 0);
    assert data[..] == Zeros(size);
    SpliceIntoZeros(size, []);
    var offset := 0;
    ghost var acc: seq<Byte> := [];
    var plane := 0;
    while plane < |planes|
      invariant plane <= |planes| && data.Length == size
      invariant Written(planes, w, h, plane) == Some(acc)
      invariant offset == |acc| <= size
      invariant data[..] == Splice(Zeros(size), 0, acc)
    {
      var ok;
      ok, offset, acc := PackPlane(data, offset, planes, w, h, plane, acc);
      if !ok {
        return None;
      }
      plane := plane + 1;
    }
    SpliceIntoZeros(size, acc);
    r := Some(data[..]);
  }

  /**
    YUV_420_888_data (camera2glpreview): an array of the three buffers'
    remaining counts, filled by three bulk gets with no stride handling, so
    row padding and chroma interleave are kept as they are.
  */
  method ConcatenatedData(y: seq<Byte>, u: seq<Byte>, v: seq<Byte>) returns (data: seq<Byte>)
    ensures |data| == |y| + |u| + |v|
    ensures data[..|y|] == y
    ensures data[|y|..|y| + |u|] == u
    ensures data[|y| + |u|..] == v
  {
    var a := new Byte[|y| + |u| + |v|];
    MemCpy(a, 0, y, 0, |y|);
    MemCpy(a, |y|, u, 0, |u|);
    MemCpy(a, |y| + |u|, v, 0, |v|);
    data := a[..];
    assert forall k :: 0 <= k < |y| ==> data[k] == y[k];
    assert forall k :: |y| <= k < |y| + |u| ==> data[k] == u[k - |y|];
    assert forall k :: |y| + |u| <= k < |data| ==> data[k] == v[k - |y| - |u|];
  }
}
