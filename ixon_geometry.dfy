/** The arithmetic of andorIxon.py's image handling: the readout window and binning of
    setImage, the crop of the correction thread, numpy's assignment rule, the rotation
    table of setcorrrot, and the ring buffer's indices. */
module IxonGeometry {
  import opened Python

  /** Number of images the ring buffer holds. */
  const BUFFER_LENGTH: nat := 100

  /** An image's shape, `(rows, columns)`, as numpy gives it. */
  datatype Shape = Shape(rows: int, cols: int)

  /** The image in one numpy array: its shape, and which camera read filled its pixels
      (0 when none has: a freshly allocated array). */
  datatype Image = Image(shape: Shape, frame: int)

  /** The readout setImage asks the driver for: binning and the 1-based, inclusive pixel
      ranges, with the binned image shape it then allocates. */
  datatype Window = Window(binX: int, binY: int, hstart: int, hend: int, vstart: int, vend: int, shape: Shape)

  /** The width (or height) setImage uses: the one given, or by default the largest multiple
      of the bin that fits between the offset and the chip edge. */
  function Extent(chip: int, offset: int, given: Option<int>, bin: int): int
    requires bin != 0
  {
    if given.Some? then given.value else FloorDiv(chip - offset, bin) * bin
  }

  /** The default extent always divides by its bin and, for a positive bin and an offset on
      the chip, is the largest such extent that fits. */
  lemma DefaultExtent(chip: int, offset: int, bin: int)
    requires bin != 0
    ensures FloorMod(Extent(chip, offset, None, bin), bin) == 0
    ensures bin > 0 && offset <= chip ==>
      0 <= Extent(chip, offset, None, bin) <= chip - offset < Extent(chip, offset, None, bin) + bin
  {
    var e := Extent(chip, offset, None, bin);
    var q := FloorDiv(chip - offset, bin);
    assert e == q * bin;
    assert FloorDiv(e, bin) == q by {
      if bin > 0 {
        assert q * bin <= e < q * bin + bin;
        FloorDivUnique(e, bin, q);
      } else {
        assert q * bin + bin < e <= q * bin;
        FloorDivUnique(e, bin, q);
      }
    }
    if bin > 0 && offset <= chip {
      assert 0 <= q by {
        if q < 0 {
          MulNeg(q, bin);
        }
      }
      assert 0 <= q * bin by {
        MulNonNeg(q, bin);
      }
    }
  }

  lemma MulNonNeg(a: int, b: int)
    requires 0 <= a && 0 <= b
    ensures 0 <= a * b
  {
  }

  lemma MulNeg(q: int, b: int)
    requires q < 0 && b > 0
    ensures q * b <= -b
  {
    assert q * b == -((-q) * b);
    assert (-q) * b >= b by {
      assert (-q) * b == b + (-q - 1) * b;
      MulNonNeg(-q - 1, b);
    }
  }

  /** Python's `//` is the only quotient its remainder bounds allow. */
  lemma FloorDivUnique(a: int, b: int, q: int)
    requires b != 0
    requires b > 0 ==> q * b <= a < q * b + b
    requires b < 0 ==> q * b + b < a <= q * b
    ensures FloorDiv(a, b) == q
  {
    var p := FloorDiv(a, b);
    if p < q {
      assert p * b + (q - p - 1) * b == q * b - b;
      if b > 0 { MulNonNeg(q - p - 1, b); } else { MulNonNeg(q - p - 1, -b); }
    } else if p > q {
      assert q * b + (p - q - 1) * b == p * b - b;
      if b > 0 { MulNonNeg(p - q - 1, b); } else { MulNonNeg(p - q - 1, -b); }
    }
  }

  /** setImage's arithmetic, in the order the source evaluates it: a default extent needs the
      chip size (AttributeError before `start`) and a non-zero bin (ZeroDivisionError); then
      the width and then the height must divide by their bins (ValueError, or
      ZeroDivisionError for a zero bin). The window asked of the driver covers the extent's
      pixels from the 1-based offset, and the image shape is the binned extent. */
  function ImageWindow(chip: Option<Shape>, x0: int, y0: int, nx: Option<int>, ny: Option<int>, binX: int, binY: int): (r: Result<Window>)
    ensures r.Ok? ==>
      binX != 0 && binY != 0 && (nx.None? || ny.None? ==> chip.Some?)
      && var w := r.value;
      var width := if nx.Some? then nx.value else Extent(chip.value.cols, x0, None, binX);
      var height := if ny.Some? then ny.value else Extent(chip.value.rows, y0, None, binY);
      w.binX == binX && w.binY == binY
      && w.hstart == 1 + x0 && w.hend - w.hstart + 1 == width
      && w.vstart == 1 + y0 && w.vend - w.vstart + 1 == height
      && w.shape.cols * binX == width && w.shape.rows * binY == height
    ensures chip.None? && (nx.None? || ny.None?) ==> r == Raise(AttributeError)
    ensures (chip.Some? || (nx.Some? && ny.Some?)) && binX == 0 ==> r == Raise(ZeroDivisionError)
    ensures (chip.Some? || (nx.Some? && ny.Some?)) && binX != 0 && binY == 0 ==>
      var width := if nx.Some? then nx.value else Extent(chip.value.cols, x0, None, binX);
      r == if ny.None? || FloorMod(width, binX) == 0 then Raise(ZeroDivisionError) else Raise(ValueError)
    ensures (chip.Some? || (nx.Some? && ny.Some?)) && binX != 0 && binY != 0 ==>
      var width := if nx.Some? then nx.value else Extent(chip.value.cols, x0, None, binX);
      var height := if ny.Some? then ny.value else Extent(chip.value.rows, y0, None, binY);
      (FloorMod(width, binX) != 0 ==> r == Raise(ValueError))
      && (FloorMod(width, binX) == 0 && FloorMod(height, binY) != 0 ==> r == Raise(ValueError))
      && (FloorMod(width, binX) == 0 && FloorMod(height, binY) == 0 ==> r.Ok?)
  {
    if nx.None? && chip.None? then Raise(AttributeError)
    else if nx.None? && binX == 0 then Raise(ZeroDivisionError)
    else if ny.None? && chip.None? then Raise(AttributeError)
    else if ny.None? && binY == 0 then Raise(ZeroDivisionError)
    else if binX == 0 then Raise(ZeroDivisionError)
    else
      var width := if nx.Some? then nx.value else Extent(chip.value.cols, x0, None, binX);
      if FloorMod(width, binX) != 0 then Raise(ValueError)
      else if binY == 0 then Raise(ZeroDivisionError)
      else
        var height := if ny.Some? then ny.value else Extent(chip.value.rows, y0, None, binY);
        if FloorMod(height, binY) != 0 then Raise(ValueError)
        else Ok(Window(binX, binY, 1 + x0, 1 + x0 + width - 1, 1 + y0, 1 + y0 + height - 1,
                       Shape(FloorDiv(height, binY), FloorDiv(width, binX))))
  }

  /** The full-chip default at an offset of 0 and a bin of 1 reads the whole chip, one-to-one. */
  lemma FullChipWindow(chip: Shape)
    requires chip.rows >= 0 && chip.cols >= 0
    ensures ImageWindow(Some(chip), 0, 0, None, None, 1, 1)
      == Ok(Window(1, 1, 1, chip.cols, 1, chip.rows, chip))
  {
    FloorDivUnique(chip.cols, 1, chip.cols);
    FloorDivUnique(chip.rows, 1, chip.rows);
  }

  /** One bound of a Python slice, made absolute and clamped into `[0, n]`. */
  function SliceBound(n: nat, i: int): (b: int)
    ensures 0 <= b <= n
    ensures 0 <= i <= n ==> b == i
    ensures 0 - n <= i < 0 ==> b == n + i
  {
    if i < 0 then (if n + i < 0 then 0 else n + i) else if i > n then n else i
  }

  /** `len(range(n)[start:stop])`, with `None` for an omitted stop. */
  function SliceLen(n: nat, start: int, stop: Option<int>): (len: nat)
    ensures len <= n
    ensures 0 <= start && stop.None? && start <= n ==> len == n - start
    ensures 0 <= start && stop.Some? && 0 - n <= stop.value < 0 && start <= n + stop.value ==> len == n + stop.value - start
  {
    var s := SliceBound(n, start);
    var e := if stop.None? then n else SliceBound(n, stop.value);
    if e < s then 0 else e - s
  }

  /** The stop of the crop slices: `-m`, or `None` when `m` is 0 (a stop of 0 would empty it). */
  function NegStop(m: int): Option<int> {
    if m == 0 then None else Some(-m)
  }

  /** The shape of `image[bottom:-top or None, left:-right or None]` (numpy shapes are never
      negative). */
  function CropShape(image: Shape, left: int, right: int, top: int, bottom: int): Shape {
    var rows: nat := if image.rows < 0 then 0 else image.rows;
    var cols: nat := if image.cols < 0 then 0 else image.cols;
    Shape(SliceLen(rows, bottom, NegStop(top)), SliceLen(cols, left, NegStop(right)))
  }

  /** The shape setskipLRTB allocates for the corrected image. */
  function OutShape(image: Shape, left: int, right: int, top: int, bottom: int): Shape {
    Shape(image.rows - top - bottom, image.cols - left - right)
  }

  /** For non-negative skips that leave a non-negative image, the correction thread's crop has
      exactly the shape setskipLRTB allocated. */
  lemma CropMatchesOut(image: Shape, left: int, right: int, top: int, bottom: int)
    requires image.rows >= 0 && image.cols >= 0
    requires 0 <= left && 0 <= right && left + right <= image.cols
    requires 0 <= top && 0 <= bottom && top + bottom <= image.rows
    ensures CropShape(image, left, right, top, bottom) == OutShape(image, left, right, top, bottom)
  {
  }

  /** A negative skip is accepted by setskipLRTB but makes the crop disagree with the
      allocated shape (here on a 512 by 512 image, skipping -1 at the top). */
  lemma NegativeSkipMismatch()
    ensures CropShape(Shape(512, 512), 0, 0, -1, 0) == Shape(1, 512)
    ensures OutShape(Shape(512, 512), 0, 0, -1, 0) == Shape(513, 512)
  {
  }

  /** numpy's `dst[:, :] = src` for two-dimensional arrays: each axis matches, or the source
      has length 1 there and is repeated. */
  predicate Assignable(src: Shape, dst: Shape) {
    (src.rows == dst.rows || src.rows == 1) && (src.cols == dst.cols || src.cols == 1)
  }

  /** setcorrrot's table: with the conventional amplifier (1) the rotations −4..3 are
      exchanged in pairs, otherwise −4..3 are kept; anything else raises ValueError. */
  function CorrRot(outamp: Option<int>, rot: int): (r: Result<int>)
    ensures r.Ok? <==> -4 <= rot < 4
    ensures r.Raise? ==> r.error == ValueError
    ensures r.Ok? ==> -4 <= r.value < 4
    ensures outamp != Some(1) && r.Ok? ==> r.value == rot
  {
    if outamp == Some(1) then
      if rot == 0 then Ok(-2)
      else if rot == 1 then Ok(-3)
      else if rot == 2 then Ok(-1)
      else if rot == 3 then Ok(-4)
      else if rot == -1 then Ok(2)
      else if rot == -2 then Ok(0)
      else if rot == -3 then Ok(1)
      else if rot == -4 then Ok(3)
      else Raise(ValueError)
    else if -4 <= rot < 4 then Ok(rot)
    else Raise(ValueError)
  }

  /** The conventional amplifier's table undoes itself, so it is a bijection of −4..3 and
      no two rotations share a correction. */
  lemma ConventionalTableInvolution(rot: int)
    requires -4 <= rot < 4
    ensures CorrRot(Some(1), CorrRot(Some(1), rot).value) == Ok(rot)
    ensures CorrRot(Some(1), rot).value != rot
  {
  }

  lemma ConventionalTableInjective(a: int, b: int)
    requires -4 <= a < 4 && -4 <= b < 4
    requires CorrRot(Some(1), a) == CorrRot(Some(1), b)
    ensures a == b
  {
    ConventionalTableInvolution(a);
    ConventionalTableInvolution(b);
  }

  /** A ring index one step on, wrapping at the buffer's end. */
  function Advance(i: int): (j: int)
    requires 0 <= i < BUFFER_LENGTH
    ensures 0 <= j < BUFFER_LENGTH
    ensures j == (i + 1) % BUFFER_LENGTH
  {
    if i + 1 >= BUFFER_LENGTH then 0 else i + 1
  }

  /** The occupancy the correction thread prints: the producer's index less its own, made
      non-negative. */
  function Occupancy(producer: int, consumer: int): (n: int)
    requires 0 <= producer < BUFFER_LENGTH && 0 <= consumer < BUFFER_LENGTH
    ensures 0 <= n < BUFFER_LENGTH
    ensures n == (producer - consumer) % BUFFER_LENGTH
  {
    var d := producer - consumer;
    if d < 0 then d + BUFFER_LENGTH else d
  }

  /** The two ring indices and the semaphore agree: the producer is ahead of the consumer by
      the number of frames not yet taken, counted modulo the buffer length. */
  predicate Balanced(producer: int, consumer: int, pending: int) {
    (producer - consumer - pending) % BUFFER_LENGTH == 0
  }

  /** Publishing a frame (advance and release) keeps the balance. */
  lemma PublishBalanced(producer: int, consumer: int, pending: int)
    requires 0 <= producer < BUFFER_LENGTH && Balanced(producer, consumer, pending)
    ensures Balanced(Advance(producer), consumer, pending + 1)
  {
    var k := (producer - consumer - pending) / BUFFER_LENGTH;
    if producer + 1 >= BUFFER_LENGTH {
      assert Advance(producer) - consumer - (pending + 1) == (k - 1) * BUFFER_LENGTH;
    } else {
      assert Advance(producer) - consumer - (pending + 1) == k * BUFFER_LENGTH;
    }
  }

  /** Taking a frame (acquire and advance) keeps the balance. */
  lemma TakeBalanced(producer: int, consumer: int, pending: int)
    requires 0 <= consumer < BUFFER_LENGTH && Balanced(producer, consumer, pending)
    ensures Balanced(producer, Advance(consumer), pending - 1)
  {
    var k := (producer - consumer - pending) / BUFFER_LENGTH;
    if consumer + 1 >= BUFFER_LENGTH {
      assert producer - Advance(consumer) - (pending - 1) == (k + 1) * BUFFER_LENGTH;
    } else {
      assert producer - Advance(consumer) - (pending - 1) == k * BUFFER_LENGTH;
    }
  }

  /** In a balanced ring the printed occupancy is the number of frames pending, modulo the
      buffer length: a producer a whole buffer ahead shows as an empty ring. */
  lemma OccupancyCountsPending(producer: int, consumer: int, pending: int)
    requires 0 <= producer < BUFFER_LENGTH && 0 <= consumer < BUFFER_LENGTH
    requires Balanced(producer, consumer, pending)
    ensures Occupancy(producer, consumer) == pending % BUFFER_LENGTH
    ensures pending == BUFFER_LENGTH ==> Occupancy(producer, consumer) == 0
  {
    var k := (producer - consumer - pending) / BUFFER_LENGTH;
    assert producer - consumer == pending + k * BUFFER_LENGTH;
    ModShift(pending, k);
  }

  lemma ModShift(a: int, k: int)
    ensures (a + k * BUFFER_LENGTH) % BUFFER_LENGTH == a % BUFFER_LENGTH
  {
    var q, r := a / BUFFER_LENGTH, a % BUFFER_LENGTH;
    assert a + k * BUFFER_LENGTH == (q + k) * BUFFER_LENGTH + r;
  }
}
