/** The step-by-step writing both `.env` writers share: the loop over
    value pairs, the loop over the values of a geometry section, and the
    `write_ssp`, `write_bty` and `write_ati` methods, each proved to leave
    exactly the lines `EnvLayout` describes. */
module SectionWriters {
  import opened Common
  import opened Text
  import opened Words
  import opened Files
  import opened EnvLayout

  lemma PairLinesSnoc(style: PairStyle, xs: seq<real>, ys: seq<real>, i: nat, fmt: Format)
    requires |xs| == |ys| && i < |xs|
    ensures PairLines(style, xs[..i + 1], ys[..i + 1], fmt)
         == PairLines(style, xs[..i], ys[..i], fmt) + [PairLine(style, xs[i], ys[i], fmt)]
  {
    var a := PairLines(style, xs[..i + 1], ys[..i + 1], fmt);
    var b := PairLines(style, xs[..i], ys[..i], fmt) + [PairLine(style, xs[i], ys[i], fmt)];
    assert forall k :: 0 <= k < |a| ==> a[k] == b[k];
  }

  /** `for d, s in zip(xs, ys): f.write(...)`: one line per pair, in order. */
  method WritePairs(fs: FileStore, path: Path, style: PairStyle, xs: seq<real>, ys: seq<real>, fmt: Format)
    requires path in fs.files && |xs| == |ys|
    modifies fs
    ensures fs.files == old(fs.files)[path := old(fs.files)[path] + PairLines(style, xs, ys, fmt)]
  {
    ghost var before := fs.files;
    var start := fs.files[path];
    assert xs[..0] == [] && ys[..0] == [] && start + [] == start;
    assert before == before[path := start + PairLines(style, xs[..0], ys[..0], fmt)];
    for i := 0 to |xs|
      invariant fs.files == before[path := start + PairLines(style, xs[..i], ys[..i], fmt)]
    {
      var line := PairLine(style, xs[i], ys[i], fmt);
      fs.WriteLine(path, line);
      PairLinesSnoc(style, xs, ys, i, fmt);
      Assoc(start, PairLines(style, xs[..i], ys[..i], fmt), [line]);
    }
    assert xs[..|xs|] == xs && ys[..|ys|] == ys;
  }

  /** One more value written behind the others, followed by `sep`. */
  lemma ValuesSoFar(xs: seq<real>, i: nat, sep: string, fmt: Format)
    requires i < |xs|
    ensures Spread(Fixed1s(xs[..i + 1], fmt), sep, "")
         == Spread(Fixed1s(xs[..i], fmt), sep, "") + (fmt.fixed1(xs[i]) + sep)
  {
    assert xs[..i + 1] == xs[..i] + [xs[i]];
    Fixed1sSnoc(xs[..i], xs[i], fmt);
    SpreadSnoc(Fixed1s(xs[..i], fmt), fmt.fixed1(xs[i]), sep);
  }

  /** The values of a geometry section: each value followed by `sep`,
      except that the last is followed by " /", the comment and the end of
      the line.  The values written before the last are kept in `line` until
      the line is complete, so the file gains one line, or none when there
      are no values. */
  method WriteValues(fs: FileStore, path: Path, xs: seq<real>, sep: string, valuesComment: string, fmt: Format)
    requires path in fs.files
    modifies fs
    ensures fs.files == old(fs.files)[path := old(fs.files)[path]
              + (if |xs| > 0 then [ValuesLine(xs, sep, valuesComment, fmt)] else [])]
  {
    ghost var before := fs.files;
    var start := fs.files[path];
    var line := "";
    assert line == Spread(Fixed1s(xs[..0], fmt), sep, "");
    for i := 0 to |xs|
      invariant i < |xs| ==> line == Spread(Fixed1s(xs[..i], fmt), sep, "")
      invariant i < |xs| || i == 0 ==> fs.files == before[path := start]
      invariant i == |xs| && i > 0 ==> fs.files == before[path := start + [ValuesLine(xs, sep, valuesComment, fmt)]]
    {
      if i == |xs| - 1 {
        var last := fmt.fixed1(xs[i]) + (" " + ("/" + valuesComment));
        SpreadAppend(Fixed1s(xs[..i], fmt), sep, last);
        assert line + last == ValuesLine(xs, sep, valuesComment, fmt);
        fs.WriteLine(path, line + last);
      } else {
        ValuesSoFar(xs, i, sep, fmt);
        line := line + (fmt.fixed1(xs[i]) + sep);
      }
    }
    if |xs| == 0 {
      assert start + [] == start;
    }
  }

  /** A geometry section: the count line, the values, then the closing
      newline. */
  method WriteGeometry(fs: FileStore, path: Path, count: int, countComment: string, xs: seq<real>,
                       sep: string, valuesComment: string, fmt: Format)
    requires path in fs.files
    modifies fs
    ensures fs.files == old(fs.files)[path := old(fs.files)[path]
              + GeometrySection(count, countComment, xs, sep, valuesComment, fmt)]
  {
    var start := fs.files[path];
    var countLine := IntStr(count) + countComment;
    var values := if |xs| > 0 then [ValuesLine(xs, sep, valuesComment, fmt)] else [];
    fs.WriteLine(path, countLine);
    WriteValues(fs, path, xs, sep, valuesComment, fmt);
    fs.WriteLine(path, "");
    assert start + [countLine] + values + [""]
        == start + GeometrySection(count, countComment, xs, sep, valuesComment, fmt);
  }

  /** One more line written to a file whose contents are known. */
  method WriteTracked(fs: FileStore, path: Path, line: string, ghost before: map<Path, seq<string>>,
                      ghost w: seq<string>)
    requires fs.files == before[path := w]
    modifies fs
    ensures fs.files == before[path := w + [line]]
  {
    fs.WriteLine(path, line);
  }

  /** The SSP block of the `.env` file: header, points, blank line. */
  method WriteSspBlock(fs: FileStore, path: Path, ds: seq<real>, ss: seq<real>, fmt: Format)
    requires path in fs.files && |ds| == |ss| && |ds| > 0
    modifies fs
    ensures fs.files == old(fs.files)[path := old(fs.files)[path] + SspBlock(ds, ss, fmt)]
  {
    var start := fs.files[path];
    var header := SspHeaderLine(ds, fmt);
    var points := PairLines(EnvSsp, ds, ss, fmt);
    fs.WriteLine(path, header);
    WritePairs(fs, path, EnvSsp, ds, ss, fmt);
    fs.WriteLine(path, "");
    assert SspBlock(ds, ss, fmt) == [header] + points + [""];
    Assoc(start, [header], points);
    Assoc(start, [header] + points, [""]);
  }

  /** The three geometry sections of the `.env` file. */
  method WriteAllGeometry(fs: FileStore, path: Path, nsd: int, sd: seq<real>, nrd: int, rd: seq<real>,
                          nrr: int, rr: seq<real>, fmt: Format)
    requires path in fs.files
    modifies fs
    ensures fs.files == old(fs.files)[path := old(fs.files)[path] + Geometry(nsd, sd, nrd, rd, nrr, rr, fmt)]
  {
    ghost var before := fs.files;
    ghost var start := fs.files[path];
    ghost var g1 := GeometrySection(nsd, NsdComment, sd, " /", SdComment, fmt);
    ghost var g2 := GeometrySection(nrd, NrdComment, rd, " ", RdComment, fmt);
    ghost var g3 := GeometrySection(nrr, NrrComment, rr, " ", RrComment, fmt);
    WriteGeometry(fs, path, nsd, NsdComment, sd, " /", SdComment, fmt);
    WriteGeometry(fs, path, nrd, NrdComment, rd, " ", RdComment, fmt);
    Overwrite(before, path, start + g1, start + g1 + g2);
    WriteGeometry(fs, path, nrr, NrrComment, rr, " ", RrComment, fmt);
    Overwrite(before, path, start + g1 + g2, start + g1 + g2 + g3);
    Assoc(start, g1 + g2, g3);
    Assoc(start, g1, g2);
    assert start + (g1 + g2) + g3 == start + Geometry(nsd, sd, nrd, rd, nrr, rr, fmt);
  }

  /** The run type and beams lines, then the launch angle, blank and step
      lines; indexing a launch-angle list shorter than two raises
      `IndexError` after the beams line. */
  method WriteRunTail(fs: FileStore, path: Path, code: string, numBeams: int, angles: seq<real>,
                      stepSize: real, maxDepth: real, maxRange: real, fmt: Format) returns (out: Outcome)
    requires path in fs.files
    modifies fs
    ensures out == RunTail(code, numBeams, angles, stepSize, maxDepth, maxRange, fmt).outcome
    ensures fs.files == old(fs.files)[path := old(fs.files)[path]
              + RunTail(code, numBeams, angles, stepSize, maxDepth, maxRange, fmt).lines]
  {
    ghost var before := fs.files;
    ghost var start := fs.files[path];
    assert fs.files == before[path := start];
    var run := RunOptionLine(code);
    var beams := BeamsLine(numBeams);
    WriteTracked(fs, path, run, before, start);
    WriteTracked(fs, path, beams, before, start + [run]);
    ghost var w := [run, beams];
    Snoc2(start, run, beams);
    if |angles| < 2 {
      return Raised(IndexError);
    }
    var launch := LaunchLine(angles[0], angles[1], fmt);
    var step := StepLine(stepSize, maxDepth, maxRange, fmt);
    WriteTracked(fs, path, launch, before, start + w);
    WriteTracked(fs, path, "", before, start + w + [launch]);
    WriteTracked(fs, path, step, before, start + w + [launch] + [""]);
    Snoc3(start + w, launch, "", step);
    Assoc(start, w, [launch, "", step]);
    return Done;
  }

  /** `write_ssp`: raises on a length mismatch before opening the file;
      otherwise the file holds exactly `SspFileLines`. */
  method WriteSspFile(fs: FileStore, path: Path, pair: string, ds: seq<real>, ss: seq<real>, fmt: Format)
    returns (out: Outcome)
    modifies fs
    ensures |ds| != |ss| ==> out == Raised(ValueError(SpeedsMismatch)) && fs.files == old(fs.files)
    ensures |ds| == |ss| ==> out == Done && fs.files == old(fs.files)[path := SspFileLines(pair, ds, ss, fmt)]
  {
    if |ds| != |ss| {
      return Raised(ValueError(SpeedsMismatch));
    }
    ghost var before := fs.files;
    var head := [Quoted(pair), IntStr(|ds|)];
    fs.Open(path);
    WriteTracked(fs, path, Quoted(pair), before, []);
    WriteTracked(fs, path, IntStr(|ds|), before, [] + [Quoted(pair)]);
    assert [] + [Quoted(pair)] + [IntStr(|ds|)] == head;
    WritePairs(fs, path, SspFile, ds, ss, fmt);
    Overwrite(before, path, head, head + PairLines(SspFile, ds, ss, fmt));
    return Done;
  }

  /** `write_bty` and `write_ati`: raises on a length mismatch before
      opening the file; otherwise the file holds exactly `ProfileFileLines`. */
  method WriteProfileFile(fs: FileStore, path: Path, pair: string, rs: seq<real>, zs: seq<real>, fmt: Format)
    returns (out: Outcome)
    modifies fs
    ensures |rs| != |zs| ==> out == Raised(ValueError(RangesMismatch)) && fs.files == old(fs.files)
    ensures |rs| == |zs| ==> out == Done && fs.files == old(fs.files)[path := ProfileFileLines(pair, rs, zs, fmt)]
  {
    if |rs| != |zs| {
      return Raised(ValueError(RangesMismatch));
    }
    ghost var before := fs.files;
    var head := [Quoted(pair), IntStr(|rs|) + ","];
    fs.Open(path);
    WriteTracked(fs, path, Quoted(pair), before, []);
    WriteTracked(fs, path, IntStr(|rs|) + ",", before, [] + [Quoted(pair)]);
    assert [] + [Quoted(pair)] + [IntStr(|rs|) + ","] == head;
    WritePairs(fs, path, Profile, rs, zs, fmt);
    Overwrite(before, path, head, head + PairLines(Profile, rs, zs, fmt));
    return Done;
  }

  /** What a file-writing call leaves behind: the file system and how the
      call ended. */
  datatype Run = Run(files: map<Path, seq<string>>, outcome: Outcome)

  /** `p` is neither created, removed nor changed. */
  predicate Untouched(before: map<Path, seq<string>>, after: map<Path, seq<string>>, p: Path) {
    (p in before <==> p in after) && (p in before ==> after[p] == before[p])
  }

  /** Writing one path leaves every other path untouched. */
  lemma UpdateKeeps(m: map<Path, seq<string>>, p: Path, v: seq<string>, q: Path)
    requires p != q
    ensures Untouched(m, m[p := v], q)
  {
  }

  lemma UntouchedTrans(a: map<Path, seq<string>>, b: map<Path, seq<string>>, c: map<Path, seq<string>>, q: Path)
    requires Untouched(a, b, q) && Untouched(b, c, q)
    ensures Untouched(a, c, q)
  {
  }

  /** The effect of `WriteSspFile` on a file system. */
  function SspRun(files: map<Path, seq<string>>, path: Path, pair: string, ds: seq<real>, ss: seq<real>,
                  fmt: Format): Run
  {
    if |ds| != |ss| then Run(files, Raised(ValueError(SpeedsMismatch)))
    else Run(files[path := SspFileLines(pair, ds, ss, fmt)], Done)
  }

  /** The effect of `WriteProfileFile` on a file system. */
  function ProfileRun(files: map<Path, seq<string>>, path: Path, pair: string, rs: seq<real>, zs: seq<real>,
                      fmt: Format): Run
  {
    if |rs| != |zs| then Run(files, Raised(ValueError(RangesMismatch)))
    else Run(files[path := ProfileFileLines(pair, rs, zs, fmt)], Done)
  }
}
