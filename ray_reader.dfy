/** The reader of the ray file the simulator produces (`Read_RAY.read_ray_file`)
    and the bounce-string helper `Read_RAY.R_type`.

    The file is the list `f.readlines()` returns, one string per line.
    Python's number conversions are a parameter `py` of the model. */
module RayReader {
  import opened Common
  import opened Text

  /** One point of a ray: range and depth. */
  datatype Point = Point(r: real, z: real)

  /** One ray block: its launch angle, its points and the cursor after it. */
  datatype Block = Block(alpha: real, ray: seq<Point>, next: nat)

  /** What `read_ray_file` returns: `ray_data` and `alpha_data`. */
  datatype RayFile = RayFile(rays: seq<seq<Point>>, alphas: seq<real>)

  /** Python's `float` and `int` on one token (or, for `float`, on a whole
      line, whose surrounding blanks it ignores): the value, or `None` where
      Python raises `ValueError`. */
  datatype Convert = Convert(decimal: string -> Option<real>, integer: string -> Option<int>)

  // ---------------------------------------------------------------------
  // Python building blocks

  /** `a1, ..., an = map(conv, toks)`: the values are converted in order;
      the first token that does not convert raises, and so does a count
      other than `n` (after at most `n + 1` conversions). */
  function Unpack<T>(toks: seq<string>, n: nat, conv: string -> Option<T>, msg: Message): (r: Result<seq<T>>)
    ensures r.Ok? <==> |toks| == n && forall k :: 0 <= k < n ==> conv(toks[k]).Some?
    ensures r.Ok? ==> |r.value| == n && forall k :: 0 <= k < n ==> r.value[k] == conv(toks[k]).value
    ensures r.Err? ==> r.error == ValueError(msg) || r.error == ValueError(UnpackCount)
    decreases |toks|
  {
    if toks == [] then
      if n == 0 then Ok([]) else Err(ValueError(UnpackCount))
    else
      match conv(toks[0])
      case None => Err(ValueError(msg))
      case Some(v) =>
        if n == 0 then Err(ValueError(UnpackCount))
        else
          match Unpack(toks[1..], n - 1, conv, msg)
          case Err(e) => Err(e)
          case Ok(vs) => Ok([v] + vs)
  }

  /** The position a Python slice bound `i` stands for in a list of length `n`. */
  function SliceBound(i: int, n: nat): (k: nat)
    ensures k <= n
    ensures 0 <= i <= n ==> k == i
  {
    if i < 0 then (if i + n < 0 then 0 else i + n)
    else if i > n then n
    else i
  }

  /** `s[start:stop]`, with Python's meaning of negative and oversized bounds. */
  function Slice<T>(s: seq<T>, start: int, stop: int): (r: seq<T>)
    ensures 0 <= start <= stop <= |s| ==> r == s[start..stop]
    ensures 0 <= start <= |s| <= stop ==> r == s[start..]
    ensures 0 <= start <= |s| ==> |r| <= |s| - start && r == s[start..start + |r|]
  {
    var a, b := SliceBound(start, |s|), SliceBound(stop, |s|);
    if a < b then s[a..b] else []
  }

  // ---------------------------------------------------------------------
  // The file's grammar

  /** `r, z = map(float, l.strip().split())`. */
  function PointOf(l: string, py: Convert): (r: Result<Point>)
    ensures r.Ok? <==> |Tokens(l)| == 2 && py.decimal(Tokens(l)[0]).Some? && py.decimal(Tokens(l)[1]).Some?
    ensures r.Ok? ==> r.value == Point(py.decimal(Tokens(l)[0]).value, py.decimal(Tokens(l)[1]).value)
  {
    match Unpack(Tokens(l), 2, py.decimal, FloatConversion)
    case Err(e) => Err(e)
    case Ok(v) => Ok(Point(v[0], v[1]))
  }

  /** The coordinate lines of one ray, read in order; the first line that is
      not a pair of numbers raises its error. */
  function Points(body: seq<string>, py: Convert): (r: Result<seq<Point>>)
    ensures r.Ok? <==> forall j :: 0 <= j < |body| ==> PointOf(body[j], py).Ok?
    ensures r.Ok? ==> |r.value| == |body|
    ensures r.Ok? ==> forall j :: 0 <= j < |body| ==> PointOf(body[j], py) == Ok(r.value[j])
  {
    if body == [] then Ok([])
    else
      match PointOf(body[0], py)
      case Err(e) => Err(e)
      case Ok(p) =>
        match Points(body[1..], py)
        case Err(e) =>
          Err(e)
        case Ok(ps) => Ok([p] + ps)
  }

  /** `npts, ndim, _ = map(int, l.strip().split())`: the number of points a
      ray block declares. */
  function CountOf(l: string, py: Convert): (r: Result<int>)
    ensures r.Ok? <==> |Tokens(l)| == 3 && forall k :: 0 <= k < 3 ==> py.integer(Tokens(l)[k]).Some?
    ensures r.Ok? ==> py.integer(Tokens(l)[0]) == Some(r.value)
  {
    match Unpack(Tokens(l), 3, py.integer, IntConversion)
    case Err(e) => Err(e)
    case Ok(counts) => Ok(counts[0])
  }

  /** When the coordinate lines do not all read, the error is that of the
      first line that does not. */
  lemma {:induction false} PointsFirstError(body: seq<string>, py: Convert)
    requires Points(body, py).Err?
    ensures exists j :: 0 <= j < |body| && PointOf(body[j], py) == Err(Points(body, py).error) &&
                        forall i :: 0 <= i < j ==> PointOf(body[i], py).Ok?
  {
    if PointOf(body[0], py).Ok? {
      PointsFirstError(body[1..], py);
      var j :| 0 <= j < |body[1..]| && PointOf(body[1..][j], py) == Err(Points(body[1..], py).error) &&
               forall i :: 0 <= i < j ==> PointOf(body[1..][i], py).Ok?;
      assert PointOf(body[j + 1], py) == Err(Points(body, py).error);
      forall i | 0 <= i < j + 1
        ensures PointOf(body[i], py).Ok?
      {
        if i > 0 {
          assert body[i] == body[1..][i - 1];
        }
      }
    } else {
      assert PointOf(body[0], py) == Err(Points(body, py).error);
    }
  }

  /** The seven header lines (title, frequency, the source and receiver
      counts, the beam and coordinate counts, source depth, end range and
      coordinate type), of which only the errors matter: the first line that
      is missing or malformed raises. */
  function Header(lines: seq<string>, py: Convert): (r: Outcome)
    ensures r == Done ==> |lines| >= 7
    ensures |lines| < 2 ==> r == Raised(IndexError)
  {
    if |lines| < 2 then Raised(IndexError)
    else if py.decimal(lines[1]).None? then Raised(ValueError(FloatConversion))
    else if |lines| < 3 then Raised(IndexError)
    else if Unpack(Tokens(lines[2]), 3, py.integer, IntConversion).Err? then
      Raised(Unpack(Tokens(lines[2]), 3, py.integer, IntConversion).error)
    else if |lines| < 4 then Raised(IndexError)
    else if Unpack(Tokens(lines[3]), 2, py.integer, IntConversion).Err? then
      Raised(Unpack(Tokens(lines[3]), 2, py.integer, IntConversion).error)
    else if |lines| < 5 then Raised(IndexError)
    else if py.decimal(lines[4]).None? then Raised(ValueError(FloatConversion))
    else if |lines| < 6 then Raised(IndexError)
    else if py.decimal(lines[5]).None? then Raised(ValueError(FloatConversion))
    else if |lines| < 7 then Raised(IndexError)
    else Done
  }

  /** One ray block at cursor `c`: the launch-angle line, the `npts ndim _`
      line and the slice `lines[c+2 : c+2+npts]` of coordinate lines, which
      is shorter than `npts` when the file ends first. */
  function ReadBlock(lines: seq<string>, c: nat, py: Convert): (r: Result<Block>)
    requires c < |lines|
    ensures r.Ok? ==> c + 2 <= r.value.next <= |lines|
    ensures r.Ok? ==> |r.value.ray| == r.value.next - (c + 2)
    ensures r.Ok? ==> py.decimal(lines[c]) == Some(r.value.alpha)
  {
    match py.decimal(lines[c])
    case None => Err(ValueError(FloatConversion))
    case Some(alpha) =>
      if c + 1 >= |lines| then Err(IndexError)
      else
        match CountOf(lines[c + 1], py)
        case Err(e) => Err(e)
        case Ok(npts) => RayBody(lines, c + 2, npts, alpha, py)
  }

  /** The points of a block whose coordinate lines start at `start`. */
  function RayBody(lines: seq<string>, start: nat, npts: int, alpha: real, py: Convert): (r: Result<Block>)
    requires start <= |lines|
    ensures r.Ok? ==> start <= r.value.next <= |lines| && |r.value.ray| == r.value.next - start
    ensures r.Ok? ==> r.value.alpha == alpha
  {
    var body := Slice(lines, start, start + npts);
    match Points(body, py)
    case Err(e) => Err(e)
    case Ok(ray) => Ok(Block(alpha, ray, start + |body|))
  }

  /** The number of points of all rays together. */
  function PointCount(rays: seq<seq<Point>>): nat {
    if rays == [] then 0 else |rays[0]| + PointCount(rays[1..])
  }

  /** The ray blocks from cursor `c` to the end of the file, in order. Every
      line from `c` on belongs to exactly one block: two header lines per ray
      plus its points. */
  function Blocks(lines: seq<string>, c: nat, py: Convert): (r: Result<RayFile>)
    requires c <= |lines|
    ensures r.Ok? ==> |r.value.rays| == |r.value.alphas|
    ensures r.Ok? ==> c + 2 * |r.value.rays| + PointCount(r.value.rays) == |lines|
    decreases |lines| - c
  {
    if c == |lines| then Ok(RayFile([], []))
    else
      match ReadBlock(lines, c, py)
      case Err(e) => Err(e)
      case Ok(b) =>
        match Blocks(lines, b.next, py)
        case Err(e) => Err(e)
        case Ok(f) =>
          assert ([b.ray] + f.rays)[1..] == f.rays;
          Ok(RayFile([b.ray] + f.rays, [b.alpha] + f.alphas))
  }

  /** `read_ray_file` on the lines of a file. */
  function ReadRayFile(lines: seq<string>, py: Convert): (r: Result<RayFile>)
    ensures r.Ok? ==> |r.value.rays| == |r.value.alphas|
    ensures r.Ok? ==> 7 + 2 * |r.value.rays| + PointCount(r.value.rays) == |lines|
  {
    match Header(lines, py)
    case Raised(e) => Err(e)
    case Done => Blocks(lines, 7, py)
  }

  // ---------------------------------------------------------------------
  // The reading loop

  /** Rays and angles read so far in front of the result for the rest. */
  function Join(rays: seq<seq<Point>>, alphas: seq<real>, rest: Result<RayFile>): Result<RayFile> {
    match rest
    case Err(e) => Err(e)
    case Ok(f) => Ok(RayFile(rays + f.rays, alphas + f.alphas))
  }

  function JoinPoints(ps: seq<Point>, rest: Result<seq<Point>>): Result<seq<Point>> {
    match rest
    case Err(e) => Err(e)
    case Ok(qs) => Ok(ps + qs)
  }

  lemma JoinStep(rays: seq<seq<Point>>, alphas: seq<real>, ray: seq<Point>, alpha: real, rest: Result<RayFile>)
    ensures Join(rays, alphas, Join([ray], [alpha], rest)) == Join(rays + [ray], alphas + [alpha], rest)
  {
    if rest.Ok? {
      assert rays + ([ray] + rest.value.rays) == (rays + [ray]) + rest.value.rays;
      assert alphas + ([alpha] + rest.value.alphas) == (alphas + [alpha]) + rest.value.alphas;
    }
  }

  /** One block, then the blocks after it. */
  lemma BlocksStep(lines: seq<string>, c: nat, py: Convert)
    requires c < |lines|
    ensures ReadBlock(lines, c, py).Err? ==> Blocks(lines, c, py) == Err(ReadBlock(lines, c, py).error)
    ensures ReadBlock(lines, c, py).Ok? ==>
      var b := ReadBlock(lines, c, py).value;
      Blocks(lines, c, py) == Join([b.ray], [b.alpha], Blocks(lines, b.next, py))
  {
  }

  lemma JoinNil(rest: Result<RayFile>)
    ensures Join([], [], rest) == rest
  {
    if rest.Ok? {
      assert [] + rest.value.rays == rest.value.rays;
      assert [] + rest.value.alphas == rest.value.alphas;
    }
  }

  lemma JoinPointsNil(rest: Result<seq<Point>>)
    ensures JoinPoints([], rest) == rest
  {
    if rest.Ok? {
      assert [] + rest.value == rest.value;
    }
  }

  lemma JoinPointsStep(ps: seq<Point>, p: Point, rest: Result<seq<Point>>)
    ensures JoinPoints(ps, JoinPoints([p], rest)) == JoinPoints(ps + [p], rest)
  {
    if rest.Ok? {
      assert ps + ([p] + rest.value) == (ps + [p]) + rest.value;
    }
  }

  /** One pass of the loop of `read_ray_file` from cursor `c`: the angle,
      the counts line, then one coordinate line per pass of the inner loop
      over the slice, the cursor moving one line per point. */
  method ReadBlockAt(lines: seq<string>, c: nat, py: Convert) returns (r: Result<Block>)
    requires c < |lines|
    ensures r == ReadBlock(lines, c, py)
  {
    var line := c;
    var alpha := py.decimal(lines[line]);
    if alpha.None? {
      return Err(ValueError(FloatConversion));
    }
    if line + 1 >= |lines| {
      return Err(IndexError);
    }
    var npts := CountOf(lines[line + 1], py);
    if npts.Err? {
      return Err(npts.error);
    }
    line := line + 2;
    var body := Slice(lines, line, line + npts.value);
    assert ReadBlock(lines, c, py) == RayBody(lines, line, npts.value, alpha.value, py);
    var ray;
    ray, line := ReadPoints(body, py, line);
    if ray.Err? {
      return Err(ray.error);
    }
    return Ok(Block(alpha.value, ray.value, line));
  }

  /** The inner `for` loop of `read_ray_file` over the coordinate lines
      `body`, the cursor `line` moving one line per point. */
  method ReadPoints(body: seq<string>, py: Convert, start: nat) returns (r: Result<seq<Point>>, line: nat)
    ensures r == Points(body, py)
    ensures r.Ok? ==> line == start + |body|
  {
    line := start;
    var ray: seq<Point> := [];
    var j := 0;
    assert body[0..] == body;
    JoinPointsNil(Points(body, py));
    while j < |body|
      invariant 0 <= j <= |body|
      invariant line == start + j
      invariant Points(body, py) == JoinPoints(ray, Points(body[j..], py))
    {
      var p := PointOf(body[j], py);
      assert body[j..][0] == body[j] && body[j..][1..] == body[j + 1..];
      if p.Err? {
        return Err(p.error), line;
      }
      JoinPointsStep(ray, p.value, Points(body[j + 1..], py));
      ray := ray + [p.value];
      line := line + 1;
      j := j + 1;
    }
    assert body[j..] == [];
    assert ray + [] == ray;
    return Ok(ray), line;
  }

  /** `read_ray_file`: after the header, a cursor `line` walks the blocks to
      the end of the file, appending each angle and each ray as it goes. */
  method ReadRay(lines: seq<string>, py: Convert) returns (res: Result<RayFile>)
    ensures res == ReadRayFile(lines, py)
  {
    var header := Header(lines, py);
    if header.Raised? {
      return Err(header.error);
    }
    var line := 7;
    var rays: seq<seq<Point>> := [];
    var alphas: seq<real> := [];
    JoinNil(Blocks(lines, 7, py));
    while line <= |lines| - 1
      invariant 7 <= line <= |lines|
      invariant Blocks(lines, 7, py) == Join(rays, alphas, Blocks(lines, line, py))
      decreases |lines| - line
    {
      var block := ReadBlockAt(lines, line, py);
      BlocksStep(lines, line, py);
      if block.Err? {
        assert Blocks(lines, line, py) == Err(block.error);
        return Err(block.error);
      }
      JoinStep(rays, alphas, block.value.ray, block.value.alpha, Blocks(lines, block.value.next, py));
      alphas := alphas + [block.value.alpha];
      rays := rays + [block.value.ray];
      line := block.value.next;
    }
    assert rays + [] == rays && alphas + [] == alphas;
    return Ok(RayFile(rays, alphas));
  }

  // ---------------------------------------------------------------------
  // Properties of the format

  /** The coordinate lines of a block are the `npts` lines after its two
      header lines when the file has that many left, and the rest of the
      file otherwise. */
  lemma RayBodyLines(lines: seq<string>, start: nat, npts: int, alpha: real, py: Convert)
    requires start <= |lines| && npts >= 0
    requires RayBody(lines, start, npts, alpha, py).Ok?
    ensures var b := RayBody(lines, start, npts, alpha, py).value;
      b.next == (if npts <= |lines| - start then start + npts else |lines|) &&
      forall j :: 0 <= j < |b.ray| ==> PointOf(lines[start + j], py) == Ok(b.ray[j])
  {
    var body := Slice(lines, start, start + npts);
    if npts <= |lines| - start {
      assert body == lines[start..start + npts];
    } else {
      assert body == lines[start..];
    }
    assert forall j :: 0 <= j < |body| ==> body[j] == lines[start + j];
  }

  /** A block whose declared count `npts` fits in the file holds exactly
      `npts` points, read from the lines right after its two header lines, in
      order, and the next block starts right after them. */
  lemma BlockExact(lines: seq<string>, c: nat, py: Convert, npts: int)
    requires c + 1 < |lines| && CountOf(lines[c + 1], py) == Ok(npts)
    requires 0 <= npts <= |lines| - (c + 2)
    requires ReadBlock(lines, c, py).Ok?
    ensures var b := ReadBlock(lines, c, py).value;
      b.next == c + 2 + npts && |b.ray| == npts &&
      forall j :: 0 <= j < npts ==> PointOf(lines[c + 2 + j], py) == Ok(b.ray[j])
  {
    var alpha := py.decimal(lines[c]).value;
    assert ReadBlock(lines, c, py) == RayBody(lines, c + 2, npts, alpha, py);
    RayBodyLines(lines, c + 2, npts, alpha, py);
  }

  /** A block that declares more points than the file has left takes all
      the remaining lines as points, without an error. */
  lemma BlockTruncated(lines: seq<string>, c: nat, py: Convert, npts: int)
    requires c + 1 < |lines| && CountOf(lines[c + 1], py) == Ok(npts)
    requires npts > |lines| - (c + 2)
    requires ReadBlock(lines, c, py).Ok?
    ensures ReadBlock(lines, c, py).value.next == |lines|
    ensures |ReadBlock(lines, c, py).value.ray| == |lines| - (c + 2)
  {
    var alpha := py.decimal(lines[c]).value;
    assert ReadBlock(lines, c, py) == RayBody(lines, c + 2, npts, alpha, py);
    RayBodyLines(lines, c + 2, npts, alpha, py);
  }

  /** So a truncated block is the last ray of the result. */
  lemma TruncatedIsLast(lines: seq<string>, c: nat, py: Convert, npts: int)
    requires c + 1 < |lines|
    requires CountOf(lines[c + 1], py) == Ok(npts)
    requires npts > |lines| - (c + 2)
    requires ReadBlock(lines, c, py).Ok?
    ensures Blocks(lines, c, py) == Ok(RayFile([ReadBlock(lines, c, py).value.ray],
                                                [ReadBlock(lines, c, py).value.alpha]))
  {
    BlockTruncated(lines, c, py, npts);
    var b := ReadBlock(lines, c, py).value;
    assert Blocks(lines, b.next, py) == Ok(RayFile([], []));
    assert [b.ray] + [] == [b.ray] && [b.alpha] + [] == [b.alpha];
  }

  /** The first ray and the first angle of the result come from the block
      at the cursor. */
  lemma FirstBlock(lines: seq<string>, c: nat, py: Convert)
    requires c < |lines|
    requires Blocks(lines, c, py).Ok?
    ensures ReadBlock(lines, c, py).Ok?
    ensures Blocks(lines, c, py).value.rays[0] == ReadBlock(lines, c, py).value.ray
    ensures py.decimal(lines[c]) == Some(Blocks(lines, c, py).value.alphas[0])
  {
  }

  // ---------------------------------------------------------------------
  // Bounce strings

  /** `R_type`: the bounce string with one more letter, "B" for a bottom
      bounce (`up_down == 1`) and "S" for a surface bounce otherwise. */
  function RType(s: string, upDown: int): (r: string)
    ensures |r| == |s| + 1 && r[..|s|] == s
    ensures r[|s|] == 'B' <==> upDown == 1
    ensures r[|s|] == 'B' || r[|s|] == 'S'
  {
    if upDown == 1 then s + "B" else s + "S"
  }
}
