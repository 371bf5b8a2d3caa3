/** `wvnc_buffer_layout` of native/buffer-layout.h: whether a frame in a mapped buffer is packed rows that
    can be read, with the machine's wrap-around spelled out. */
module BufferLayout {
  import opened Results

  const UINT32_MAX: int := 0xFFFF_FFFF
  const INT32_MAX: int := 0x7FFF_FFFF

  newtype uint32 = n: int | 0 <= n <= UINT32_MAX
  newtype int32 = n: int | -INT32_MAX - 1 <= n <= INT32_MAX

  /** The two results of a layout that fits. */
  datatype Placed = Placed(mappingSize: int, pixelOffset: int)

  /** What C computes in `size_t`: the value modulo the size of the type. */
  function Wrapped(n: int, sizeMax: int): (r: int)
    requires UINT32_MAX <= sizeMax
    ensures 0 <= r <= sizeMax
    ensures 0 <= n <= sizeMax ==> r == n
  {
    n % (sizeMax + 1)
  }

  /** The guards and the arithmetic in their order, every result in `size_t` wrapped. */
  function Layout(width: uint32, height: uint32, bpp: uint32, stride: int32, maxsize: uint32, mapoffset: uint32,
                  chunkOffset: uint32, chunkSize: uint32, sizeMax: int): Option<Placed>
    requires UINT32_MAX <= sizeMax
  {
    if width == 0 || height == 0 || bpp == 0 || stride <= 0 || width as int > sizeMax / bpp as int then None
    else
      var rowBytes := Wrapped(width as int * bpp as int, sizeMax);
      if rowBytes > stride as int || height as int - 1 > (sizeMax - rowBytes) / stride as int then None
      else
        var span := Wrapped(Wrapped((height as int - 1) * stride as int, sizeMax) + rowBytes, sizeMax);
        if chunkOffset > maxsize || chunkSize > maxsize - chunkOffset || span > chunkSize as int then None
        else
          var mappingSize := Wrapped(mapoffset as int + maxsize as int, sizeMax);
          if mappingSize < maxsize as int then None
          else Some(Placed(mappingSize, Wrapped(mapoffset as int + chunkOffset as int, sizeMax)))
  }

  /** The layout on unbounded integers: whole rows, no row longer than the stride, all of it in the chunk, the chunk
      in the data, and the mapping addressable. */
  predicate Fits(width: int, height: int, bpp: int, stride: int, maxsize: int, mapoffset: int, chunkOffset: int,
                 chunkSize: int, sizeMax: int)
  {
    && 0 < width && 0 < height && 0 < bpp && width * bpp <= stride
    && (height - 1) * stride + width * bpp <= chunkSize
    && chunkOffset + chunkSize <= maxsize && mapoffset + maxsize <= sizeMax
  }

  lemma QuotientBound(n: int, d: int, limit: int)
    requires 0 < d && 0 <= limit
    ensures n > limit / d <==> n * d > limit
  {
    var q := limit / d;
    assert limit == q * d + limit % d;
    if n > q {
      Above(q + 1, n, d);
      assert (q + 1) * d == q * d + d;
    } else {
      Above(n, q, d);
    }
  }

  lemma Above(a: int, b: int, d: int)
    requires a <= b && 0 < d
    ensures a * d <= b * d
  {
    assert (b - a) * d >= 0;
    assert (b - a) * d == b * d - a * d;
  }

  lemma WrappedAround(a: int, b: int, sizeMax: int)
    requires UINT32_MAX <= sizeMax && 0 <= a <= UINT32_MAX && 0 <= b <= UINT32_MAX
    ensures Wrapped(a + b, sizeMax) < b <==> a + b > sizeMax
    ensures a + b <= sizeMax ==> Wrapped(a + b, sizeMax) == a + b
  {
    if a + b > sizeMax {
      assert (a + b) % (sizeMax + 1) == a + b - (sizeMax + 1);
    }
  }

  /** The rows of the frame: how far the last byte of the last row is from the first of the first. */
  lemma RowsInRange(width: uint32, height: uint32, bpp: uint32, stride: int32, sizeMax: int)
    requires UINT32_MAX <= sizeMax && 0 < width && 0 < height && 0 < bpp && 0 < stride
    requires width as int * bpp as int <= stride as int
    ensures height as int - 1 > (sizeMax - width as int * bpp as int) / stride as int <==>
      (height as int - 1) * stride as int + width as int * bpp as int > sizeMax
  {
    Positive(width as int, bpp as int);
    QuotientBound(height as int - 1, stride as int, sizeMax - width as int * bpp as int);
  }

  lemma Positive(a: int, b: int)
    requires 0 < a && 0 < b
    ensures 0 < a * b
  {
  }

  lemma NotNegative(a: int, b: int)
    requires 0 <= a && 0 <= b
    ensures 0 <= a * b
  {
  }

  /** The check accepts exactly the layouts that fit on unbounded integers, and none of its results wraps. */
  lemma LayoutExact(width: uint32, height: uint32, bpp: uint32, stride: int32, maxsize: uint32, mapoffset: uint32,
                    chunkOffset: uint32, chunkSize: uint32, sizeMax: int)
    requires UINT32_MAX <= sizeMax
    ensures Layout(width, height, bpp, stride, maxsize, mapoffset, chunkOffset, chunkSize, sizeMax) ==
      if Fits(width as int, height as int, bpp as int, stride as int, maxsize as int, mapoffset as int,
              chunkOffset as int, chunkSize as int, sizeMax)
      then Some(Placed(mapoffset as int + maxsize as int, mapoffset as int + chunkOffset as int))
      else None
  {
    WrappedAround(mapoffset as int, maxsize as int, sizeMax);
    WrappedAround(mapoffset as int, chunkOffset as int, sizeMax);
    if 0 < width && 0 < height && 0 < bpp && 0 < stride {
      var rowBytes := width as int * bpp as int;
      var rows := (height as int - 1) * stride as int;
      Positive(width as int, bpp as int);
      NotNegative(height as int - 1, stride as int);
      QuotientBound(width as int, bpp as int, sizeMax);
      if rowBytes <= stride as int {
        RowsInRange(width, height, bpp, stride, sizeMax);
      }
    } else if 0 < width && 0 < height && 0 < bpp {
      Positive(width as int, bpp as int);
    }
  }

  /** Every byte of every row of an accepted frame lies in the mapping, at or after the pixel offset. */
  lemma BytesInside(width: uint32, height: uint32, bpp: uint32, stride: int32, maxsize: uint32, mapoffset: uint32,
                    chunkOffset: uint32, chunkSize: uint32, sizeMax: int, row: int, byte: int)
    requires UINT32_MAX <= sizeMax
    requires Layout(width, height, bpp, stride, maxsize, mapoffset, chunkOffset, chunkSize, sizeMax).Some?
    requires 0 <= row < height as int && 0 <= byte < width as int * bpp as int
    ensures var placed := Layout(width, height, bpp, stride, maxsize, mapoffset, chunkOffset, chunkSize, sizeMax).value;
      && placed.pixelOffset <= placed.pixelOffset + row * stride as int + byte < placed.mappingSize <= sizeMax
      && chunkOffset as int + row * stride as int + byte < chunkOffset as int + chunkSize as int <= maxsize as int
  {
    LayoutExact(width, height, bpp, stride, maxsize, mapoffset, chunkOffset, chunkSize, sizeMax);
    NotNegative(row, stride as int);
    Above(row, height as int - 1, stride as int);
  }

  /** No two bytes of an accepted frame share an address. */
  lemma BytesApart(width: uint32, height: uint32, bpp: uint32, stride: int32, maxsize: uint32, mapoffset: uint32,
                   chunkOffset: uint32, chunkSize: uint32, sizeMax: int, row: int, byte: int, row': int, byte': int)
    requires UINT32_MAX <= sizeMax
    requires Layout(width, height, bpp, stride, maxsize, mapoffset, chunkOffset, chunkSize, sizeMax).Some?
    requires 0 <= byte < width as int * bpp as int && 0 <= byte' < width as int * bpp as int && row < row'
    ensures row * stride as int + byte < row' * stride as int + byte'
  {
    LayoutExact(width, height, bpp, stride, maxsize, mapoffset, chunkOffset, chunkSize, sizeMax);
    Above(row + 1, row', stride as int);
    assert (row + 1) * stride as int == row * stride as int + stride as int;
  }
}
