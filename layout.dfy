/** The line layouts shared by the ray-trace writer (`Write_RAY`) and the
    transmission-loss writer (`Write_TL`): the pieces of the `.env` file both
    emit identically, and the whole `.ssp`, `.bty` and `.ati` files.  Every
    function gives the lines of a file without their newlines.  Lines are
    grouped from the right; the text is that of the source's f-strings. */
module EnvLayout {
  import opened Common
  import opened Text
  import opened Words
  import opened Splitting

  /** The three tabs that separate a value from its comment. */
  const Tabs := ['\t', '\t', '\t']

  /** What a writer leaves in a file it opened: the lines written, and
      whether it returned normally or raised part-way through. */
  datatype Emission = Emission(lines: seq<string>, outcome: Outcome)

  /** `first`, then — only if it completed — `second` behind it. */
  function Then(first: Emission, second: Emission): (r: Emission)
    ensures first.outcome != Done ==> r == first
    ensures first.outcome == Done ==> r.lines == first.lines + second.lines && r.outcome == second.outcome
  {
    if first.outcome != Done then first else Emission(first.lines + second.lines, second.outcome)
  }

  function Quoted(s: string): string {
    "'" + s + "'"
  }

  // ---------------------------------------------------------------------
  // The head of the .env file

  const TitleComment := "\t\t\t! TITLE"
  const FreqComment := "\t\t\t! FREQ (Hz)"
  const NMediaComment := "\t\t\t! NMEDIA"
  const SspOptComment := "\t\t\t! SSPOPT"

  function TitleLine(filename: string): string {
    Quoted(filename) + TitleComment
  }

  function FreqLine(freq: real, fmt: Format): string {
    fmt.show(freq) + FreqComment
  }

  function NMediaLine(nmedia: int): string {
    IntStr(nmedia) + NMediaComment
  }

  function SspOptLine(code: string): string {
    Quoted(code) + SspOptComment
  }

  /** The bottom-type line: the quoted code, a blank, the roughness. */
  function BottomTypeLine(code: string, roughness: real, comment: string, fmt: Format): string {
    Quoted(code) + (" " + (fmt.show(roughness) + comment))
  }

  /** A half-space line: depth, compressional speed, shear speed, density
      and attenuation, the speed with two decimals and the rest with one,
      then " /" and the comment. */
  function HalfSpaceLine(depth: real, speed: real, shear: real, density: real, attenuation: real,
                         comment: string, fmt: Format): string
  {
    fmt.fixed1(depth) + ("  " + (fmt.fixed2(speed) + ("  " + (fmt.fixed1(shear) + ("  "
      + (fmt.fixed1(density) + ("  " + (fmt.fixed1(attenuation) + (" " + ("/" + comment))))))))))
  }

  /** A half-space line splits into its five values in the order depth,
      compressional speed, shear speed, density, attenuation, then "/", then
      the comment. */
  lemma HalfSpaceTokens(depth: real, speed: real, shear: real, density: real, attenuation: real,
                        comment: string, fmt: Format)
    requires ValidFormat(fmt)
    requires |comment| > 0 && IsBlank(comment[0])
    ensures Tokens(HalfSpaceLine(depth, speed, shear, density, attenuation, comment, fmt))
         == [fmt.fixed1(depth), fmt.fixed2(speed), fmt.fixed1(shear), fmt.fixed1(density),
             fmt.fixed1(attenuation), "/"] + Tokens(comment)
  {
    assert Renders(fmt, depth) && Renders(fmt, speed) && Renders(fmt, shear);
    assert Renders(fmt, density) && Renders(fmt, attenuation);
    FiveFieldsTokens(fmt.fixed1(depth), fmt.fixed2(speed), fmt.fixed1(shear), fmt.fixed1(density),
                     fmt.fixed1(attenuation), comment);
  }

  // ---------------------------------------------------------------------
  // Lines made of value pairs

  /** The three layouts of a line holding one pair of values. */
  datatype PairStyle =
    | EnvSsp   // `.env` SSP point: depth with one decimal, speed with two, then "  /"
    | SspFile  // `.ssp` point: both with two decimals
    | Profile  // `.bty` / `.ati` point: range with two decimals, depth with one, then " / "

  function PairLine(style: PairStyle, x: real, y: real, fmt: Format): string {
    match style
    case EnvSsp => fmt.fixed1(x) + ("  " + (fmt.fixed2(y) + ("  " + "/")))
    case SspFile => fmt.fixed2(x) + ("  " + fmt.fixed2(y))
    case Profile => fmt.fixed2(x) + ("  " + (fmt.fixed1(y) + (" " + ("/" + " "))))
  }

  /** One line per pair of `zip(xs, ys)`, in order. */
  function PairLines(style: PairStyle, xs: seq<real>, ys: seq<real>, fmt: Format): (lines: seq<string>)
    requires |xs| == |ys|
    ensures |lines| == |xs|
    ensures forall k :: 0 <= k < |xs| ==> lines[k] == PairLine(style, xs[k], ys[k], fmt)
  {
    if xs == [] then []
    else [PairLine(style, xs[0], ys[0], fmt)] + PairLines(style, xs[1..], ys[1..], fmt)
  }

  /** What a whitespace-splitting reader sees on a pair line. */
  function PairTokens(style: PairStyle, x: real, y: real, fmt: Format): seq<string> {
    match style
    case EnvSsp => [fmt.fixed1(x), fmt.fixed2(y), "/"]
    case SspFile => [fmt.fixed2(x), fmt.fixed2(y)]
    case Profile => [fmt.fixed2(x), fmt.fixed1(y), "/"]
  }

  /** A pair line reads back as its two values in order (and the "/"
      terminator where the layout has one). */
  lemma PairLineTokens(style: PairStyle, x: real, y: real, fmt: Format)
    requires ValidFormat(fmt)
    ensures Tokens(PairLine(style, x, y, fmt)) == PairTokens(style, x, y, fmt)
  {
    var a, b1, b2 := fmt.fixed1(x), fmt.fixed2(x), fmt.fixed1(y);
    var c := fmt.fixed2(y);
    assert Renders(fmt, x) && Renders(fmt, y);
    TokenIsWord(a); TokenIsWord(b1); TokenIsWord(b2); TokenIsWord(c);
    match style
    case EnvSsp =>
      TokensCons(a, "  ", c + ("  " + "/"));
      TokensCons(c, "  ", "/");
      TokensOfWord("/");
    case SspFile =>
      TokensCons(b1, "  ", c);
      TokensOfWord(c);
    case Profile =>
      TokensCons(b1, "  ", b2 + (" " + ("/" + " ")));
      TokensCons(b2, " ", "/" + " ");
      WordThenRest("/", " ");
      TokensSkipBlanks(" ", "");
      assert " " + "" == " ";
  }

  // ---------------------------------------------------------------------
  // The SSP block of the .env file

  /** Python's `min` over a non-empty sequence. */
  function SeqMin(s: seq<real>): (m: real)
    requires |s| > 0
    ensures m in s && forall k :: 0 <= k < |s| ==> m <= s[k]
  {
    if |s| == 1 then s[0]
    else var m := SeqMin(s[1..]); if s[0] <= m then s[0] else m
  }

  /** Python's `max` over a non-empty sequence. */
  function SeqMax(s: seq<real>): (m: real)
    requires |s| > 0
    ensures m in s && forall k :: 0 <= k < |s| ==> s[k] <= m
  {
    if |s| == 1 then s[0]
    else var m := SeqMax(s[1..]); if s[0] >= m then s[0] else m
  }

  const SspHeaderComment := "\t\t\t! DEPTH of bottom (m)"

  /** The SSP header: the number of points, the smallest and the largest
      depth. */
  function SspHeaderLine(ds: seq<real>, fmt: Format): string
    requires |ds| > 0
  {
    IntStr(|ds|) + ("  " + (fmt.fixed1(SeqMin(ds)) + ("  " + (fmt.fixed1(SeqMax(ds)) + SspHeaderComment))))
  }

  /** The SSP block: the header line, one point line per depth/speed pair,
      and the blank line that closes the block. */
  function SspBlock(ds: seq<real>, ss: seq<real>, fmt: Format): seq<string>
    requires |ds| == |ss| && |ds| > 0
  {
    [SspHeaderLine(ds, fmt)] + PairLines(EnvSsp, ds, ss, fmt) + [""]
  }

  /** The header reads back as the number of points, then the smallest and
      the largest depth. */
  lemma SspHeaderTokens(ds: seq<real>, fmt: Format)
    requires |ds| > 0 && ValidFormat(fmt)
    ensures Tokens(SspHeaderLine(ds, fmt))
         == [IntStr(|ds|), fmt.fixed1(SeqMin(ds)), fmt.fixed1(SeqMax(ds))] + Tokens(SspHeaderComment)
    ensures ParseInt(IntStr(|ds|)) == Some(|ds|)
  {
    assert Renders(fmt, SeqMin(ds)) && Renders(fmt, SeqMax(ds));
    ThreeFieldsTokens(IntStr(|ds|), fmt.fixed1(SeqMin(ds)), fmt.fixed1(SeqMax(ds)), SspHeaderComment);
    IntStrRoundTrip(|ds|);
  }

  /** The SSP block holds exactly one header and `|ds|` point lines in input
      order, then a blank line. */
  lemma SspBlockLayout(ds: seq<real>, ss: seq<real>, fmt: Format)
    requires |ds| == |ss| && |ds| > 0
    requires ValidFormat(fmt)
    ensures var block := SspBlock(ds, ss, fmt);
      && |block| == |ds| + 2
      && block[|ds| + 1] == ""
      && |Tokens(block[0])| >= 3
      && Tokens(block[0])[..3] == [IntStr(|ds|), fmt.fixed1(SeqMin(ds)), fmt.fixed1(SeqMax(ds))]
      && forall k :: 0 <= k < |ds| ==> Tokens(block[k + 1]) == [fmt.fixed1(ds[k]), fmt.fixed2(ss[k]), "/"]
  {
    var block := SspBlock(ds, ss, fmt);
    forall k | 0 <= k < |ds|
      ensures Tokens(block[k + 1]) == [fmt.fixed1(ds[k]), fmt.fixed2(ss[k]), "/"]
    {
      assert block[k + 1] == PairLine(EnvSsp, ds[k], ss[k], fmt);
      PairLineTokens(EnvSsp, ds[k], ss[k], fmt);
    }
    assert block[0] == SspHeaderLine(ds, fmt);
    SspHeaderTokens(ds, fmt);
  }

  // ---------------------------------------------------------------------
  // The geometry sections of the .env file

  /** The one-decimal renderings of `xs`, in order. */
  function Fixed1s(xs: seq<real>, fmt: Format): (r: seq<string>)
    ensures |r| == |xs|
    ensures forall k :: 0 <= k < |xs| ==> r[k] == fmt.fixed1(xs[k])
  {
    if xs == [] then [] else [fmt.fixed1(xs[0])] + Fixed1s(xs[1..], fmt)
  }

  lemma Fixed1sTokens(xs: seq<real>, fmt: Format)
    requires ValidFormat(fmt)
    ensures AllTokens(Fixed1s(xs, fmt))
  {
    forall k | 0 <= k < |xs|
      ensures IsToken(Fixed1s(xs, fmt)[k])
    {
      assert Renders(fmt, xs[k]);
    }
  }

  lemma Fixed1sSnoc(xs: seq<real>, x: real, fmt: Format)
    ensures Fixed1s(xs + [x], fmt) == Fixed1s(xs, fmt) + [fmt.fixed1(x)]
  {
    var a, b := Fixed1s(xs + [x], fmt), Fixed1s(xs, fmt) + [fmt.fixed1(x)];
    assert forall k :: 0 <= k < |a| ==> a[k] == b[k];
  }

  /** The one line holding every value of a geometry section: all but the
      last followed by `sep`, the last by " /" and the comment. */
  function ValuesLine(xs: seq<real>, sep: string, comment: string, fmt: Format): string
    requires |xs| > 0
  {
    Spread(Fixed1s(xs[..|xs| - 1], fmt), sep, fmt.fixed1(xs[|xs| - 1]) + (" " + ("/" + comment)))
  }

  /** A geometry section: the count line, the values line when there are
      values, and the blank line the closing `f.write("\n")` adds. */
  function GeometrySection(count: int, countComment: string, xs: seq<real>, sep: string,
                           valuesComment: string, fmt: Format): seq<string>
  {
    [IntStr(count) + countComment]
      + (if |xs| > 0 then [ValuesLine(xs, sep, valuesComment, fmt)] else [])
      + [""]
  }

  const NsdComment := "\t\t\t! NSD: Number of source depths"
  const SdComment := "\t\t\t! Source depth (m)"
  const NrdComment := "\t\t\t! NRD: Number of receiver depths"
  const RdComment := "\t\t\t! Receiver depths (m)"
  const NrrComment := "\t\t\t! NR: Number of ranges"
  const RrComment := "\t\t\t! Range values (km)"

  /** The three geometry sections: source depths (non-final values followed
      by " /"), receiver depths and ranges (non-final values followed by a
      blank). */
  function Geometry(nsd: int, sd: seq<real>, nrd: int, rd: seq<real>, nrr: int, rr: seq<real>,
                    fmt: Format): seq<string>
  {
    GeometrySection(nsd, NsdComment, sd, " /", SdComment, fmt)
      + GeometrySection(nrd, NrdComment, rd, " ", RdComment, fmt)
      + GeometrySection(nrr, NrrComment, rr, " ", RrComment, fmt)
  }

  /** A section has two lines, three when it has values; its count line
      reads back as the caller's count whatever the number of values, and the
      section ends with a blank line. */
  lemma GeometrySectionCount(count: int, countComment: string, xs: seq<real>, sep: string,
                             valuesComment: string, fmt: Format)
    requires |countComment| > 0 && IsBlank(countComment[0])
    ensures var sec := GeometrySection(count, countComment, xs, sep, valuesComment, fmt);
      && |sec| == (if |xs| > 0 then 3 else 2)
      && sec[|sec| - 1] == ""
      && |Tokens(sec[0])| > 0 && ParseInt(Tokens(sec[0])[0]) == Some(count)
  {
    var n := IntStr(count);
    TokenIsWord(n);
    WordThenRest(n, countComment);
    IntStrRoundTrip(count);
  }

  /** With exactly one value, a section is the count line, one line holding
      the value, " /" and the comment, and the blank line. */
  lemma SingleValueSection(count: int, countComment: string, x: real, sep: string,
                           valuesComment: string, fmt: Format)
    ensures GeometrySection(count, countComment, [x], sep, valuesComment, fmt)
         == [IntStr(count) + countComment, fmt.fixed1(x) + (" " + ("/" + valuesComment)), ""]
  {
    assert [x][..0] == [];
  }

  /** A receiver-depth or range line splits into exactly the values, in
      order, then the terminating "/", then the comment. */
  lemma SpacedValuesTokens(xs: seq<real>, comment: string, fmt: Format)
    requires |xs| > 0 && ValidFormat(fmt)
    requires |comment| > 0 && IsBlank(comment[0])
    ensures Tokens(ValuesLine(xs, " ", comment, fmt)) == Fixed1s(xs, fmt) + (["/"] + Tokens(comment))
  {
    var n := |xs|;
    Fixed1sTokens(xs[..n - 1], fmt);
    assert Renders(fmt, xs[n - 1]);
    SpacedLineTokens(Fixed1s(xs[..n - 1], fmt), fmt.fixed1(xs[n - 1]), comment);
    assert xs[..n - 1] + [xs[n - 1]] == xs;
    Fixed1sSnoc(xs[..n - 1], xs[n - 1], fmt);
  }

  /** A source-depth line splits into the first value, then every later
      value with a "/" glued to its front, then "/" and the comment: the
      " /" written after each non-final source depth lands in front of the
      next value. */
  lemma SlashValuesTokens(xs: seq<real>, comment: string, fmt: Format)
    requires |xs| > 0 && ValidFormat(fmt)
    requires |comment| > 0 && IsBlank(comment[0])
    ensures Tokens(ValuesLine(xs, " /", comment, fmt))
         == [fmt.fixed1(xs[0])] + (Slashed(Fixed1s(xs[1..], fmt)) + (["/"] + Tokens(comment)))
  {
    var n := |xs|;
    Fixed1sTokens(xs[..n - 1], fmt);
    assert Renders(fmt, xs[n - 1]);
    SlashLineTokens(Fixed1s(xs[..n - 1], fmt), fmt.fixed1(xs[n - 1]), comment);
    assert xs[..n - 1] + [xs[n - 1]] == xs;
    Fixed1sSnoc(xs[..n - 1], xs[n - 1], fmt);
    assert Fixed1s(xs, fmt)[1..] == Fixed1s(xs[1..], fmt);
  }

  // ---------------------------------------------------------------------
  // The tail of the .env file

  const RunOptionComment := "\t\t\t! Option: 'R' for ray tracing, 'C' = coherent TL, 'I' = incoherent TL, 'S' = arrivals"
  const BeamsComment := " \t\t\t! Number of beams"
  const LaunchComment := "\t\t\t! Launch angles (degrees)"
  const StepComment := "\t\t\t! Step size (m), Max depth (m), Max range (km)"

  function RunOptionLine(code: string): string {
    Quoted(code) + RunOptionComment
  }

  function BeamsLine(numBeams: int): string {
    IntStr(numBeams) + BeamsComment
  }

  /** The two launch angles, " /" and the comment. */
  function LaunchLine(first: real, second: real, fmt: Format): string {
    fmt.show(first) + (" " + (fmt.show(second) + (" " + ("/" + LaunchComment))))
  }

  function StepLine(stepSize: real, maxDepth: real, maxRange: real, fmt: Format): string {
    fmt.fixed1(stepSize) + (" " + (fmt.fixed1(maxDepth) + (" " + (fmt.fixed1(maxRange)
      + StepComment))))
  }

  /** The end of a `.env` file from the run type on: the run type and
      beams lines, then — if there are two launch angles to index — the
      launch angle line, a blank line and the step line. */
  function RunTail(code: string, numBeams: int, angles: seq<real>, stepSize: real, maxDepth: real,
                   maxRange: real, fmt: Format): (r: Emission)
    ensures r.outcome == Done <==> |angles| >= 2
    ensures r.outcome != Done ==> r.outcome == Raised(IndexError)
    ensures r.outcome != Done ==> r.lines == [RunOptionLine(code), BeamsLine(numBeams)]
  {
    var w := [RunOptionLine(code), BeamsLine(numBeams)];
    if |angles| < 2 then Emission(w, Raised(IndexError))
    else Emission(w + [LaunchLine(angles[0], angles[1], fmt), "", StepLine(stepSize, maxDepth, maxRange, fmt)], Done)
  }

  /** A complete run tail is five lines. */
  lemma RunTailLines(code: string, numBeams: int, angles: seq<real>, stepSize: real, maxDepth: real,
                     maxRange: real, fmt: Format)
    requires |angles| >= 2
    ensures RunTail(code, numBeams, angles, stepSize, maxDepth, maxRange, fmt).lines
         == [RunOptionLine(code), BeamsLine(numBeams), LaunchLine(angles[0], angles[1], fmt), "",
             StepLine(stepSize, maxDepth, maxRange, fmt)]
  {
  }

  // ---------------------------------------------------------------------
  // The .ssp, .bty and .ati files

  /** `.ssp`: the quoted interpolation marker, the point count, then one
      line per depth/speed pair. */
  function SspFileLines(pair: string, ds: seq<real>, ss: seq<real>, fmt: Format): seq<string>
    requires |ds| == |ss|
  {
    [Quoted(pair), IntStr(|ds|)] + PairLines(SspFile, ds, ss, fmt)
  }

  /** `.bty` and `.ati`: the quoted marker, the point count followed by a
      comma, then one line per range/depth pair. */
  function ProfileFileLines(pair: string, rs: seq<real>, zs: seq<real>, fmt: Format): seq<string>
    requires |rs| == |zs|
  {
    [Quoted(pair), IntStr(|rs|) + ","] + PairLines(Profile, rs, zs, fmt)
  }

  /** Every line of a pair layout reads back as the tokens of its pair. */
  lemma PairLinesTokens(style: PairStyle, xs: seq<real>, ys: seq<real>, fmt: Format)
    requires |xs| == |ys| && ValidFormat(fmt)
    ensures forall k :: 0 <= k < |xs| ==>
              Tokens(PairLines(style, xs, ys, fmt)[k]) == PairTokens(style, xs[k], ys[k], fmt)
  {
    forall k | 0 <= k < |xs|
      ensures Tokens(PairLines(style, xs, ys, fmt)[k]) == PairTokens(style, xs[k], ys[k], fmt)
    {
      PairLineTokens(style, xs[k], ys[k], fmt);
    }
  }

  /** An `.ssp` file has exactly N + 2 lines; its count line reads back as N
      and each following line as the two-decimal depth and speed of one pair,
      in input order. */
  lemma SspFileLayout(pair: string, ds: seq<real>, ss: seq<real>, fmt: Format)
    requires |ds| == |ss| && ValidFormat(fmt)
    ensures var lines := SspFileLines(pair, ds, ss, fmt);
      && |lines| == |ds| + 2
      && lines[0] == Quoted(pair)
      && ParseInt(lines[1]) == Some(|ds|)
      && forall k :: 0 <= k < |ds| ==> Tokens(lines[k + 2]) == [fmt.fixed2(ds[k]), fmt.fixed2(ss[k])]
  {
    var lines := SspFileLines(pair, ds, ss, fmt);
    IntStrRoundTrip(|ds|);
    PairLinesTokens(SspFile, ds, ss, fmt);
    assert lines[2..] == PairLines(SspFile, ds, ss, fmt);
  }

  /** A `.bty` or `.ati` file has exactly N + 2 lines; its count line is N
      followed by a comma, and each following line reads back as one range and
      depth, in input order, then "/". */
  lemma ProfileFileLayout(pair: string, rs: seq<real>, zs: seq<real>, fmt: Format)
    requires |rs| == |zs| && ValidFormat(fmt)
    ensures var lines := ProfileFileLines(pair, rs, zs, fmt);
      && |lines| == |rs| + 2
      && lines[0] == Quoted(pair)
      && |lines[1]| > 1 && lines[1][|lines[1]| - 1] == ','
      && ParseInt(lines[1][..|lines[1]| - 1]) == Some(|rs|)
      && forall k :: 0 <= k < |rs| ==> Tokens(lines[k + 2]) == [fmt.fixed2(rs[k]), fmt.fixed1(zs[k]), "/"]
  {
    var lines := ProfileFileLines(pair, rs, zs, fmt);
    IntStrRoundTrip(|rs|);
    assert lines[1][..|lines[1]| - 1] == IntStr(|rs|);
    PairLinesTokens(Profile, rs, zs, fmt);
    assert lines[2..] == PairLines(Profile, rs, zs, fmt);
  }
}
