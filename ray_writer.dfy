/** `Write_RAY`: writes the ray-trace input files of the propagation
    simulator — the `.env` environment file, and the `.ssp`, `.bty` and
    `.ati` files for the sound-speed profile, the bathymetry and the
    altimetry. */
module RayWriter {
  import opened Common
  import opened Text
  import opened Words
  import opened Files
  import opened EnvLayout
  import opened SectionWriters

  /** The attributes `Write_RAY.__init__` stores.  The writer never changes
      them; `opt4` is stored but never read, and is left out.  `ati_depths`
      keeps its `None` default when the caller has no altimetry, so it is
      optional here. */
  datatype RayConfig = RayConfig(
    dir: string, filename: string,
    sspDepths: seq<real>, ssp: seq<real>,
    bathRanges: seq<real>, bathDepths: seq<real>, atiDepths: Option<seq<real>>,
    freq: real, nmedia: int, sspopt: string, surfaceOpt: seq<real>,
    bottomType: string, roughness: real, bottomOpt: seq<real>,
    nsd: int, sd: seq<real>, nrd: int, rd: seq<real>, nrr: int, rr: seq<real>,
    rayCompute: string, numBeams: int, launchAngles: seq<real>,
    stepSize: real, maxDepth: real, maxRange: real,
    pair: string)

  function EnvPath(c: RayConfig): Path { JoinPath(c.dir, c.filename + ".env") }
  function SspPath(c: RayConfig): Path { JoinPath(c.dir, c.filename + ".ssp") }
  function BtyPath(c: RayConfig): Path { JoinPath(c.dir, c.filename + ".bty") }
  function AtiPath(c: RayConfig): Path { JoinPath(c.dir, c.filename + ".ati") }

  const SurfaceComment := Tabs + "! Surface depth, compressional speed, shear speed, density, and attenuation"
  const BottomTypeComment := "\t\t\t! BOTTOM TYPE, roughness"
  const BottomComment := Tabs + "! Bottom depth, compressional speed, shear speed, density, and attenuation"

  /** The checks `write_env` makes before it opens the file: the length
      check, then `np.max` over the SSP depths, the bathymetry depths and the
      bathymetry ranges, which raises on an empty array. */
  function EnvCheck(c: RayConfig): Option<Error> {
    if |c.sspDepths| != |c.ssp| then Some(ValueError(SpeedsMismatch))
    else if |c.sspDepths| == 0 || |c.bathDepths| == 0 || |c.bathRanges| == 0 then Some(ValueError(ZeroSizeMax))
    else None
  }

  function SurfaceLine(c: RayConfig, fmt: Format): string
    requires |c.surfaceOpt| >= 5
  {
    var s := c.surfaceOpt;
    HalfSpaceLine(s[0], s[1], s[2], s[3], s[4], SurfaceComment, fmt)
  }

  function BottomLine(c: RayConfig, fmt: Format): string
    requires |c.bottomOpt| >= 5
  {
    var b := c.bottomOpt;
    HalfSpaceLine(b[0], b[1], b[2], b[3], b[4], BottomComment, fmt)
  }

  /** The `.env` text `write_env` produces once its checks have passed, line
      by line as the source writes it.  Indexing an option string or list
      that is too short raises `IndexError` and leaves the lines written so
      far in the file. */
  function EnvEmission(c: RayConfig, fmt: Format): Emission
    requires EnvCheck(c).None?
  {
    Then(EnvHead(c, fmt), Then(EnvBottom(c, fmt), EnvRun(c, fmt)))
  }

  /** The title, frequency, media, SSP option and (for an 'A' surface)
      surface lines, then the SSP block. */
  function EnvHead(c: RayConfig, fmt: Format): (r: Emission)
    requires EnvCheck(c).None?
    ensures r.outcome == Done <==> |c.sspopt| >= 5 && (c.sspopt[1] == 'A' ==> |c.surfaceOpt| >= 5)
    ensures r.outcome != Done ==> r.outcome == Raised(IndexError)
    ensures r.outcome != Done ==> r.lines == EnvOptions(c, fmt).lines
  {
    Then(EnvOptions(c, fmt), Emission(SspBlock(c.sspDepths, c.ssp, fmt), Done))
  }

  /** The title, frequency, media, SSP option and (for an 'A' surface)
      surface lines. */
  function EnvOptions(c: RayConfig, fmt: Format): (r: Emission)
    ensures r.outcome == Done <==> |c.sspopt| >= 5 && (c.sspopt[1] == 'A' ==> |c.surfaceOpt| >= 5)
    ensures r.outcome != Done ==> r.outcome == Raised(IndexError)
    ensures |c.sspopt| < 5 ==> r.lines == [TitleLine(c.filename), FreqLine(c.freq, fmt), NMediaLine(c.nmedia)]
    ensures |c.sspopt| >= 5 && c.sspopt[1] == 'A' && |c.surfaceOpt| < 5 ==>
              r.lines == [TitleLine(c.filename), FreqLine(c.freq, fmt), NMediaLine(c.nmedia), SspOptLine(c.sspopt[..5])]
  {
    var w1 := [TitleLine(c.filename), FreqLine(c.freq, fmt), NMediaLine(c.nmedia)];
    if |c.sspopt| < 5 then Emission(w1, Raised(IndexError))
    else
      var w2 := w1 + [SspOptLine(c.sspopt[..5])];
      if c.sspopt[1] == 'A' && |c.surfaceOpt| < 5 then Emission(w2, Raised(IndexError))
      else if c.sspopt[1] == 'A' then Emission(w2 + [SurfaceLine(c, fmt)], Done)
      else Emission(w2, Done)
  }

  /** The bottom type and bottom half-space lines, the blank line behind
      them, and the three geometry sections. */
  function EnvBottom(c: RayConfig, fmt: Format): (r: Emission)
    ensures r.outcome == Done <==> |c.bottomType| >= 2 && |c.bottomOpt| >= 5
    ensures r.outcome != Done ==> r.outcome == Raised(IndexError)
    ensures |c.bottomType| < 2 ==> r.lines == []
    ensures |c.bottomType| >= 2 && |c.bottomOpt| < 5 ==>
              r.lines == [BottomTypeLine(c.bottomType[..2], c.roughness, BottomTypeComment, fmt)]
  {
    if |c.bottomType| < 2 then Emission([], Raised(IndexError))
    else
      var kind := BottomTypeLine(c.bottomType[..2], c.roughness, BottomTypeComment, fmt);
      if |c.bottomOpt| < 5 then Emission([kind], Raised(IndexError))
      else Emission([kind, BottomLine(c, fmt), ""] + Geometry(c.nsd, c.sd, c.nrd, c.rd, c.nrr, c.rr, fmt), Done)
  }

  /** The run type, the number of beams, the launch angles, a blank line and
      the step line. */
  function EnvRun(c: RayConfig, fmt: Format): (r: Emission)
    ensures r.outcome == Done <==> |c.rayCompute| >= 5 && |c.launchAngles| >= 2
    ensures r.outcome != Done ==> r.outcome == Raised(IndexError)
    ensures |c.rayCompute| < 5 ==> r.lines == []
    ensures |c.rayCompute| >= 5 && |c.launchAngles| < 2 ==>
              r.lines == [RunOptionLine(c.rayCompute[..5]), BeamsLine(c.numBeams)]
  {
    if |c.rayCompute| < 5 then Emission([], Raised(IndexError))
    else RunTail(c.rayCompute[..5], c.numBeams, c.launchAngles, c.stepSize, c.maxDepth, c.maxRange, fmt)
  }

  /** Every option string and list `write_env` indexes is long enough. */
  predicate EnvShaped(c: RayConfig) {
    && |c.sspopt| >= 5
    && (c.sspopt[1] == 'A' ==> |c.surfaceOpt| >= 5)
    && |c.bottomType| >= 2
    && |c.bottomOpt| >= 5
    && |c.rayCompute| >= 5
    && |c.launchAngles| >= 2
  }

  // ---------------------------------------------------------------------
  // The writers

  /** `write_env`. */
  method WriteEnv(fs: FileStore, c: RayConfig, fmt: Format) returns (out: Outcome)
    modifies fs
    ensures EnvCheck(c).Some? ==> out == Raised(EnvCheck(c).value) && fs.files == old(fs.files)
    ensures EnvCheck(c).None? ==>
      && out == EnvEmission(c, fmt).outcome
      && fs.files == old(fs.files)[EnvPath(c) := EnvEmission(c, fmt).lines]
  {
    var path := EnvPath(c);
    if |c.sspDepths| != |c.ssp| {
      return Raised(ValueError(SpeedsMismatch));
    }
    if |c.sspDepths| == 0 || |c.bathDepths| == 0 || |c.bathRanges| == 0 {
      return Raised(ValueError(ZeroSizeMax));
    }
    ghost var before := fs.files;
    fs.Open(path);
    ghost var head := EnvHead(c, fmt);
    ghost var bottom := EnvBottom(c, fmt);
    ghost var run := EnvRun(c, fmt);
    assert EnvEmission(c, fmt) == Then(head, Then(bottom, run));
    out := WriteHead(fs, path, c, fmt);
    assert [] + head.lines == head.lines;
    Overwrite(before, path, [], head.lines);
    if out != Done {
      return;
    }
    out := WriteBottom(fs, path, c, fmt);
    Overwrite(before, path, head.lines, head.lines + bottom.lines);
    if out != Done {
      return;
    }
    out := WriteRun(fs, path, c, fmt);
    Overwrite(before, path, head.lines + bottom.lines, head.lines + bottom.lines + run.lines);
    Assoc(head.lines, bottom.lines, run.lines);
  }

  /** The lines of `write_env` up to the SSP block's closing blank line. */
  method WriteHead(fs: FileStore, path: Path, c: RayConfig, fmt: Format) returns (out: Outcome)
    requires EnvCheck(c).None? && path in fs.files
    modifies fs
    ensures out == EnvHead(c, fmt).outcome
    ensures fs.files == old(fs.files)[path := old(fs.files)[path] + EnvHead(c, fmt).lines]
  {
    ghost var before := fs.files;
    ghost var start := fs.files[path];
    ghost var options := EnvOptions(c, fmt).lines;
    ghost var block := SspBlock(c.sspDepths, c.ssp, fmt);
    out := WriteOptions(fs, path, c, fmt);
    if out != Done {
      return;
    }
    WriteSspBlock(fs, path, c.sspDepths, c.ssp, fmt);
    Overwrite(before, path, start + options, start + options + block);
    Assoc(start, options, block);
  }

  /** The option lines at the head of the `.env` file. */
  method WriteOptions(fs: FileStore, path: Path, c: RayConfig, fmt: Format) returns (out: Outcome)
    requires path in fs.files
    modifies fs
    ensures out == EnvOptions(c, fmt).outcome
    ensures fs.files == old(fs.files)[path := old(fs.files)[path] + EnvOptions(c, fmt).lines]
  {
    ghost var before := fs.files;
    ghost var start := fs.files[path];
    assert fs.files == before[path := start];
    var title := TitleLine(c.filename);
    var freq := FreqLine(c.freq, fmt);
    var media := NMediaLine(c.nmedia);
    WriteTracked(fs, path, title, before, start);
    WriteTracked(fs, path, freq, before, start + [title]);
    WriteTracked(fs, path, media, before, start + [title] + [freq]);
    ghost var w := [title, freq, media];
    assert start + [title] + [freq] + [media] == start + w;
    if |c.sspopt| < 5 {
      return Raised(IndexError);
    }
    var opt := SspOptLine(c.sspopt[..5]);
    WriteTracked(fs, path, opt, before, start + w);
    Assoc(start, w, [opt]);
    w := w + [opt];
    if c.sspopt[1] == 'A' {
      if |c.surfaceOpt| < 5 {
        return Raised(IndexError);
      }
      var surface := SurfaceLine(c, fmt);
      WriteTracked(fs, path, surface, before, start + w);
      Assoc(start, w, [surface]);
    }
    return Done;
  }

  /** The bottom lines and the geometry of `write_env`. */
  method WriteBottom(fs: FileStore, path: Path, c: RayConfig, fmt: Format) returns (out: Outcome)
    requires path in fs.files
    modifies fs
    ensures out == EnvBottom(c, fmt).outcome
    ensures fs.files == old(fs.files)[path := old(fs.files)[path] + EnvBottom(c, fmt).lines]
  {
    ghost var before := fs.files;
    ghost var start := fs.files[path];
    assert fs.files == before[path := start];
    if |c.bottomType| < 2 {
      assert start + [] == start;
      return Raised(IndexError);
    }
    var kind := BottomTypeLine(c.bottomType[..2], c.roughness, BottomTypeComment, fmt);
    WriteTracked(fs, path, kind, before, start);
    if |c.bottomOpt| < 5 {
      return Raised(IndexError);
    }
    var bottom := BottomLine(c, fmt);
    WriteTracked(fs, path, bottom, before, start + [kind]);
    WriteTracked(fs, path, "", before, start + [kind] + [bottom]);
    ghost var w := [kind, bottom, ""];
    assert start + [kind] + [bottom] + [""] == start + w;
    var geometry := Geometry(c.nsd, c.sd, c.nrd, c.rd, c.nrr, c.rr, fmt);
    WriteAllGeometry(fs, path, c.nsd, c.sd, c.nrd, c.rd, c.nrr, c.rr, fmt);
    Assoc(start, w, geometry);
    return Done;
  }

  /** The run type, beams, launch angles and step lines of `write_env`. */
  method WriteRun(fs: FileStore, path: Path, c: RayConfig, fmt: Format) returns (out: Outcome)
    requires path in fs.files
    modifies fs
    ensures out == EnvRun(c, fmt).outcome
    ensures fs.files == old(fs.files)[path := old(fs.files)[path] + EnvRun(c, fmt).lines]
  {
    if |c.rayCompute| < 5 {
      assert fs.files[path] + [] == fs.files[path];
      assert fs.files == fs.files[path := fs.files[path]];
      return Raised(IndexError);
    }
    out := WriteRunTail(fs, path, c.rayCompute[..5], c.numBeams, c.launchAngles, c.stepSize, c.maxDepth, c.maxRange, fmt);
  }

  /** `write_ssp`. */
  method WriteSsp(fs: FileStore, c: RayConfig, fmt: Format) returns (out: Outcome)
    modifies fs
    ensures Run(fs.files, out) == SspRun(old(fs.files), SspPath(c), c.pair, c.sspDepths, c.ssp, fmt)
  {
    out := WriteSspFile(fs, SspPath(c), c.pair, c.sspDepths, c.ssp, fmt);
  }

  /** `write_bty`: the bathymetry ranges paired with the bathymetry depths. */
  method WriteBty(fs: FileStore, c: RayConfig, fmt: Format) returns (out: Outcome)
    modifies fs
    ensures Run(fs.files, out) == ProfileRun(old(fs.files), BtyPath(c), c.pair, c.bathRanges, c.bathDepths, fmt)
  {
    out := WriteProfileFile(fs, BtyPath(c), c.pair, c.bathRanges, c.bathDepths, fmt);
  }

  /** `write_ati`: the bathymetry ranges paired with the altimetry depths. */
  method WriteAti(fs: FileStore, c: RayConfig, fmt: Format) returns (out: Outcome)
    modifies fs
    ensures Run(fs.files, out) == AtiRun(old(fs.files), c, fmt)
  {
    if c.atiDepths.None? {
      return Raised(TypeError);
    }
    out := WriteProfileFile(fs, AtiPath(c), c.pair, c.bathRanges, c.atiDepths.value, fmt);
  }

  /** The effect of `write_ati`: `len()` of a missing `ati_depths` raises
      `TypeError` before the file is opened. */
  function AtiRun(files: map<Path, seq<string>>, c: RayConfig, fmt: Format): Run {
    match c.atiDepths
    case None => Run(files, Raised(TypeError))
    case Some(ds) => ProfileRun(files, AtiPath(c), c.pair, c.bathRanges, ds, fmt)
  }

  /** The `.ati` file can be written: `ati_depths` is present and as long
      as `bath_ranges`. */
  predicate AtiMatches(c: RayConfig) {
    c.atiDepths.Some? && |c.bathRanges| == |c.atiDepths.value|
  }

  /** The `.bty` step raises: it is requested and its lengths differ. */
  predicate BtyRaises(c: RayConfig)
    requires |c.bottomType| >= 2
  {
    c.bottomType[1] == '*' && |c.bathRanges| != |c.bathDepths|
  }

  /** The effect of `write_files` on a file system: the `.env` file, then the
      `.bty` file when the bottom type's second character is '*', then the
      `.ati` file when the SSP option's fifth character is '*'; an exception
      ends the sequence. */
  function FilesRun(files: map<Path, seq<string>>, c: RayConfig, fmt: Format): Run {
    match EnvCheck(c)
    case Some(e) => Run(files, Raised(e))
    case None =>
      var env := EnvEmission(c, fmt);
      var afterEnv := files[EnvPath(c) := env.lines];
      if env.outcome != Done then Run(afterEnv, env.outcome)
      else
        assert EnvShaped(c) by { EnvCompletes(c, fmt); }
        var afterBty := BtyStep(afterEnv, c, fmt);
        if afterBty.outcome != Done then afterBty
        else AtiStep(afterBty.files, c, fmt)
  }

  /** The `.bty` step of `write_files`. */
  function BtyStep(files: map<Path, seq<string>>, c: RayConfig, fmt: Format): Run
    requires |c.bottomType| >= 2
  {
    if c.bottomType[1] == '*' then ProfileRun(files, BtyPath(c), c.pair, c.bathRanges, c.bathDepths, fmt)
    else Run(files, Done)
  }

  /** The `.ati` step of `write_files`. */
  function AtiStep(files: map<Path, seq<string>>, c: RayConfig, fmt: Format): Run
    requires |c.sspopt| >= 5
  {
    if c.sspopt[4] == '*' then AtiRun(files, c, fmt)
    else Run(files, Done)
  }

  /** `write_files`. */
  method WriteFiles(fs: FileStore, c: RayConfig, fmt: Format) returns (out: Outcome)
    modifies fs
    ensures Run(fs.files, out) == FilesRun(old(fs.files), c, fmt)
  {
    out := WriteEnv(fs, c, fmt);
    if out != Done {
      return;
    }
    EnvCompletes(c, fmt);
    if c.bottomType[1] == '*' {
      out := WriteBty(fs, c, fmt);
      if out != Done {
        return;
      }
    }
    if c.sspopt[4] == '*' {
      out := WriteAti(fs, c, fmt);
    }
  }

  // ---------------------------------------------------------------------
  // Properties

  /** `write_env` raises before opening the file exactly when the SSP
      depths and speeds differ in length (the length message), or one of the
      SSP depths, bathymetry depths or bathymetry ranges is empty. */
  lemma EnvCheckCases(c: RayConfig)
    ensures EnvCheck(c) == Some(ValueError(SpeedsMismatch)) <==> |c.sspDepths| != |c.ssp|
    ensures EnvCheck(c) == None <==>
      |c.sspDepths| == |c.ssp| && |c.sspDepths| > 0 && |c.bathDepths| > 0 && |c.bathRanges| > 0
  {
  }

  /** Once its checks pass, `write_env` either writes the whole file or
      raises `IndexError` part-way, and it completes exactly when every
      option string and list it indexes is long enough. */
  lemma EnvCompletes(c: RayConfig, fmt: Format)
    requires EnvCheck(c).None?
    ensures EnvEmission(c, fmt).outcome == Done <==> EnvShaped(c)
    ensures EnvEmission(c, fmt).outcome != Done ==> EnvEmission(c, fmt).outcome == Raised(IndexError)
  {
    var head, bottom, run := EnvHead(c, fmt).outcome, EnvBottom(c, fmt).outcome, EnvRun(c, fmt).outcome;
    var e := EnvEmission(c, fmt).outcome;
    if head != Done {
      assert e == head;
    } else if bottom != Done {
      assert e == bottom;
    } else {
      assert e == run;
    }
  }

  /** The option lines, once all are written: title, frequency, media,
      the SSP option, and the surface line exactly for an 'A' surface. */
  lemma OptionsLayout(c: RayConfig, fmt: Format)
    requires |c.sspopt| >= 5 && (c.sspopt[1] == 'A' ==> |c.surfaceOpt| >= 5)
    ensures var options := EnvOptions(c, fmt).lines;
            && |options| == (if c.sspopt[1] == 'A' then 5 else 4)
            && options[..3] == [TitleLine(c.filename), FreqLine(c.freq, fmt), NMediaLine(c.nmedia)]
            && options[3] == SspOptLine(c.sspopt[..5])
            && (c.sspopt[1] == 'A' ==> options[4] == SurfaceLine(c, fmt))
  {
  }

  /** Once the option lines are all written, the `.env` text is the option
      lines, the SSP block and whatever follows. */
  lemma EnvSplitsAtBlock(c: RayConfig, fmt: Format)
    requires EnvCheck(c).None? && |c.sspopt| >= 5 && (c.sspopt[1] == 'A' ==> |c.surfaceOpt| >= 5)
    ensures EnvEmission(c, fmt).lines
         == EnvOptions(c, fmt).lines + SspBlock(c.sspDepths, c.ssp, fmt) + Then(EnvBottom(c, fmt), EnvRun(c, fmt)).lines
  {
    var block := SspBlock(c.sspDepths, c.ssp, fmt);
    var head := EnvHead(c, fmt);
    assert EnvEmission(c, fmt) == Then(head, Then(EnvBottom(c, fmt), EnvRun(c, fmt)));
    assert head == Then(EnvOptions(c, fmt), Emission(block, Done));
  }

  /** The head of a `.env` file whose option lines are all written: the
      title, frequency and media lines, the SSP option line at index 3, and
      the surface line at index 4 exactly when the SSP option's second
      character is 'A' (otherwise index 4 starts the SSP block, see
      `EnvBlockFollows`). */
  lemma EnvHeadLines(c: RayConfig, fmt: Format)
    requires EnvCheck(c).None? && |c.sspopt| >= 5 && (c.sspopt[1] == 'A' ==> |c.surfaceOpt| >= 5)
    ensures var lines := EnvEmission(c, fmt).lines;
            && |lines| >= 5
            && lines[..3] == [TitleLine(c.filename), FreqLine(c.freq, fmt), NMediaLine(c.nmedia)]
            && lines[3] == SspOptLine(c.sspopt[..5])
            && (c.sspopt[1] == 'A' ==> lines[4] == SurfaceLine(c, fmt))
  {
    var options := EnvOptions(c, fmt).lines;
    var block := SspBlock(c.sspDepths, c.ssp, fmt);
    var rest := Then(EnvBottom(c, fmt), EnvRun(c, fmt)).lines;
    EnvSplitsAtBlock(c, fmt);
    OptionsLayout(c, fmt);
    Front(options, block, rest, 3);
    if c.sspopt[1] == 'A' {
      Front(options, block, rest, 4);
    }
  }

  /** The SSP block follows the option lines directly: at index 4, or at
      index 5 behind a surface line. */
  lemma EnvBlockFollows(c: RayConfig, fmt: Format)
    requires EnvCheck(c).None? && |c.sspopt| >= 5 && (c.sspopt[1] == 'A' ==> |c.surfaceOpt| >= 5)
    ensures var lines := EnvEmission(c, fmt).lines;
            var k := if c.sspopt[1] == 'A' then 5 else 4;
            && |lines| >= k + |c.sspDepths| + 2
            && lines[k..k + |c.sspDepths| + 2] == SspBlock(c.sspDepths, c.ssp, fmt)
  {
    var options := EnvOptions(c, fmt).lines;
    var block := SspBlock(c.sspDepths, c.ssp, fmt);
    var rest := Then(EnvBottom(c, fmt), EnvRun(c, fmt)).lines;
    EnvSplitsAtBlock(c, fmt);
    OptionsLayout(c, fmt);
    Middle(options, block, rest);
    assert |block| == |c.sspDepths| + 2;
  }

  /** A complete `.env` text is its head, its bottom part and its run part,
      and the head ends behind the SSP block. */
  lemma EnvSplitsAtBottom(c: RayConfig, fmt: Format)
    requires EnvCheck(c).None? && EnvShaped(c)
    ensures EnvEmission(c, fmt).lines == EnvHead(c, fmt).lines + EnvBottom(c, fmt).lines + EnvRun(c, fmt).lines
    ensures |EnvHead(c, fmt).lines| == (if c.sspopt[1] == 'A' then 5 else 4) + |c.sspDepths| + 2
  {
    var head := EnvHead(c, fmt);
    assert EnvEmission(c, fmt) == Then(head, Then(EnvBottom(c, fmt), EnvRun(c, fmt)));
    assert head == Then(EnvOptions(c, fmt), Emission(SspBlock(c.sspDepths, c.ssp, fmt), Done));
    OptionsLayout(c, fmt);
    Assoc(head.lines, EnvBottom(c, fmt).lines, EnvRun(c, fmt).lines);
  }

  /** Behind the SSP block of a complete `.env` file come the bottom type
      line, the bottom half-space line, a blank line and the three geometry
      sections. */
  lemma EnvBottomLines(c: RayConfig, fmt: Format)
    requires EnvCheck(c).None? && EnvShaped(c)
    ensures var lines := EnvEmission(c, fmt).lines;
            var k := (if c.sspopt[1] == 'A' then 5 else 4) + |c.sspDepths| + 2;
            var geometry := Geometry(c.nsd, c.sd, c.nrd, c.rd, c.nrr, c.rr, fmt);
            && |lines| >= k + 3 + |geometry|
            && lines[k] == BottomTypeLine(c.bottomType[..2], c.roughness, BottomTypeComment, fmt)
            && lines[k + 1] == BottomLine(c, fmt)
            && lines[k + 2] == ""
            && lines[k + 3..k + 3 + |geometry|] == geometry
  {
    var head := EnvHead(c, fmt).lines;
    var bottom := EnvBottom(c, fmt).lines;
    var run := EnvRun(c, fmt).lines;
    var geometry := Geometry(c.nsd, c.sd, c.nrd, c.rd, c.nrr, c.rr, fmt);
    var front := [BottomTypeLine(c.bottomType[..2], c.roughness, BottomTypeComment, fmt), BottomLine(c, fmt), ""];
    EnvSplitsAtBottom(c, fmt);
    assert bottom == front + geometry;
    Assoc(head, front + geometry, run);
    Assoc(head, front, geometry);
    Middle(head + front, geometry, run);
    Within(head, front, geometry + run, 0);
    Within(head, front, geometry + run, 1);
    Within(head, front, geometry + run, 2);
  }

  /** A complete `.env` file ends with the run type, beams, launch angle,
      blank and step lines. */
  lemma EnvEndLines(c: RayConfig, fmt: Format)
    requires EnvCheck(c).None? && EnvShaped(c)
    ensures var lines := EnvEmission(c, fmt).lines;
            && |lines| >= 5
            && lines[|lines| - 5..] == [RunOptionLine(c.rayCompute[..5]), BeamsLine(c.numBeams),
                                        LaunchLine(c.launchAngles[0], c.launchAngles[1], fmt), "",
                                        StepLine(c.stepSize, c.maxDepth, c.maxRange, fmt)]
  {
    var head := EnvHead(c, fmt).lines;
    var bottom := EnvBottom(c, fmt).lines;
    var run := EnvRun(c, fmt).lines;
    EnvSplitsAtBottom(c, fmt);
    RunTailLines(c.rayCompute[..5], c.numBeams, c.launchAngles, c.stepSize, c.maxDepth, c.maxRange, fmt);
    Middle(head, bottom, run);
    assert |head + bottom + run| - 5 == |head| + |bottom|;
  }

  /** The surface and bottom half-space lines split into the five option
      values in order — depth, compressional speed, shear speed, density,
      attenuation — then "/" and the comment. */
  lemma HalfSpaceLinesTokens(c: RayConfig, fmt: Format)
    requires ValidFormat(fmt)
    ensures var s := c.surfaceOpt;
            |s| >= 5 ==>
              Tokens(SurfaceLine(c, fmt))
              == [fmt.fixed1(s[0]), fmt.fixed2(s[1]), fmt.fixed1(s[2]), fmt.fixed1(s[3]), fmt.fixed1(s[4]), "/"]
                 + Tokens(SurfaceComment)
    ensures var b := c.bottomOpt;
            |b| >= 5 ==>
              Tokens(BottomLine(c, fmt))
              == [fmt.fixed1(b[0]), fmt.fixed2(b[1]), fmt.fixed1(b[2]), fmt.fixed1(b[3]), fmt.fixed1(b[4]), "/"]
                 + Tokens(BottomComment)
  {
    var s, b := c.surfaceOpt, c.bottomOpt;
    if |s| >= 5 {
      HalfSpaceTokens(s[0], s[1], s[2], s[3], s[4], SurfaceComment, fmt);
    }
    if |b| >= 5 {
      HalfSpaceTokens(b[0], b[1], b[2], b[3], b[4], BottomComment, fmt);
    }
  }

  /** Neither step writes a file other than its own. */
  lemma StepsKeep(files: map<Path, seq<string>>, c: RayConfig, fmt: Format, q: Path)
    requires |c.bottomType| >= 2 && |c.sspopt| >= 5
    ensures q != BtyPath(c) ==> Untouched(files, BtyStep(files, c, fmt).files, q)
    ensures q != AtiPath(c) ==> Untouched(files, AtiStep(files, c, fmt).files, q)
  {
    if q != BtyPath(c) && |c.bathRanges| == |c.bathDepths| {
      UpdateKeeps(files, BtyPath(c), ProfileFileLines(c.pair, c.bathRanges, c.bathDepths, fmt), q);
    }
    if q != AtiPath(c) && AtiMatches(c) {
      UpdateKeeps(files, AtiPath(c), ProfileFileLines(c.pair, c.bathRanges, c.atiDepths.value, fmt), q);
    }
  }

  /** A path other than the `.bty` and `.ati` paths is left as the `.env`
      step left it. */
  lemma AfterEnvKeeps(files: map<Path, seq<string>>, c: RayConfig, fmt: Format, q: Path)
    requires EnvCheck(c).None? && q != BtyPath(c) && q != AtiPath(c)
    ensures Untouched(files[EnvPath(c) := EnvEmission(c, fmt).lines], FilesRun(files, c, fmt).files, q)
  {
    var afterEnv := files[EnvPath(c) := EnvEmission(c, fmt).lines];
    if EnvEmission(c, fmt).outcome == Done {
      EnvCompletes(c, fmt);
      var afterBty := BtyStep(afterEnv, c, fmt);
      StepsKeep(afterEnv, c, fmt, q);
      if afterBty.outcome == Done {
        StepsKeep(afterBty.files, c, fmt, q);
        UntouchedTrans(afterEnv, afterBty.files, AtiStep(afterBty.files, c, fmt).files, q);
      }
    }
  }

  /** Whatever happens after the `.env` checks pass, `write_files` leaves
      the `.env` file holding the emitted lines and never writes the `.ssp`
      file; if the `.env` file does not complete, nothing else changes. */
  lemma FilesKeepEnv(files: map<Path, seq<string>>, c: RayConfig, fmt: Format)
    requires EnvCheck(c).None?
    ensures var r := FilesRun(files, c, fmt);
            var env := EnvEmission(c, fmt);
            && EnvPath(c) in r.files && r.files[EnvPath(c)] == env.lines
            && Untouched(files, r.files, SspPath(c))
            && (env.outcome != Done ==> r.files == files[EnvPath(c) := env.lines])
  {
    DistinctExtensions(c.dir, c.filename, ".env", ".ssp");
    DistinctExtensions(c.dir, c.filename, ".env", ".bty");
    DistinctExtensions(c.dir, c.filename, ".env", ".ati");
    DistinctExtensions(c.dir, c.filename, ".ssp", ".bty");
    DistinctExtensions(c.dir, c.filename, ".ssp", ".ati");
    var afterEnv := files[EnvPath(c) := EnvEmission(c, fmt).lines];
    var r := FilesRun(files, c, fmt);
    AfterEnvKeeps(files, c, fmt, EnvPath(c));
    AfterEnvKeeps(files, c, fmt, SspPath(c));
    UpdateKeeps(files, EnvPath(c), EnvEmission(c, fmt).lines, SspPath(c));
    UntouchedTrans(files, afterEnv, r.files, SspPath(c));
  }

  /** Once the `.env` file completes, `write_files` writes the `.bty` file
      exactly when the bottom type's second character is '*' and its
      lengths agree; otherwise the `.bty` path is left as it was. */
  lemma FilesBty(files: map<Path, seq<string>>, c: RayConfig, fmt: Format)
    requires EnvCheck(c).None? && EnvShaped(c)
    ensures var r := FilesRun(files, c, fmt);
            && (c.bottomType[1] == '*' && |c.bathRanges| == |c.bathDepths| ==>
                  BtyPath(c) in r.files
                  && r.files[BtyPath(c)] == ProfileFileLines(c.pair, c.bathRanges, c.bathDepths, fmt))
            && (c.bottomType[1] != '*' || BtyRaises(c) ==> Untouched(files, r.files, BtyPath(c)))
  {
    EnvCompletes(c, fmt);
    DistinctExtensions(c.dir, c.filename, ".env", ".bty");
    DistinctExtensions(c.dir, c.filename, ".bty", ".ati");
    var afterEnv := files[EnvPath(c) := EnvEmission(c, fmt).lines];
    var afterBty := BtyStep(afterEnv, c, fmt);
    UpdateKeeps(files, EnvPath(c), EnvEmission(c, fmt).lines, BtyPath(c));
    StepsKeep(afterBty.files, c, fmt, BtyPath(c));
    if c.bottomType[1] != '*' {
      UntouchedTrans(files, afterEnv, AtiStep(afterEnv, c, fmt).files, BtyPath(c));
    } else if BtyRaises(c) {
      assert FilesRun(files, c, fmt) == Run(afterEnv, Raised(ValueError(RangesMismatch)));
    }
  }

  /** Once the `.env` file completes, `write_files` writes the `.ati` file
      exactly when the SSP option's fifth character is '*' and the `.bty`
      step before it did not raise. */
  lemma FilesAti(files: map<Path, seq<string>>, c: RayConfig, fmt: Format)
    requires EnvCheck(c).None? && EnvShaped(c)
    ensures var r := FilesRun(files, c, fmt);
            && (c.sspopt[4] == '*' && !BtyRaises(c) && AtiMatches(c) ==>
                  AtiPath(c) in r.files
                  && r.files[AtiPath(c)] == ProfileFileLines(c.pair, c.bathRanges, c.atiDepths.value, fmt))
            && (c.sspopt[4] != '*' || BtyRaises(c) || !AtiMatches(c) ==> Untouched(files, r.files, AtiPath(c)))
  {
    EnvCompletes(c, fmt);
    DistinctExtensions(c.dir, c.filename, ".env", ".ati");
    DistinctExtensions(c.dir, c.filename, ".bty", ".ati");
    var afterEnv := files[EnvPath(c) := EnvEmission(c, fmt).lines];
    var afterBty := BtyStep(afterEnv, c, fmt);
    var r := FilesRun(files, c, fmt);
    UpdateKeeps(files, EnvPath(c), EnvEmission(c, fmt).lines, AtiPath(c));
    StepsKeep(afterEnv, c, fmt, AtiPath(c));
    UntouchedTrans(files, afterEnv, afterBty.files, AtiPath(c));
    StepOutcomes(afterEnv, c, fmt);
    if afterBty.outcome != Done {
      assert r == afterBty;
    } else {
      assert r == AtiStep(afterBty.files, c, fmt);
      if c.sspopt[4] != '*' || !AtiMatches(c) {
        assert r.files == afterBty.files;
      }
    }
  }

  /** `write_files` completes exactly when the `.env` file completes and each
      of the `.bty` and `.ati` files it goes on to write has ranges and
      depths of equal length; otherwise it ends with the first exception
      raised. */
  lemma FilesOutcome(files: map<Path, seq<string>>, c: RayConfig, fmt: Format)
    ensures var r := FilesRun(files, c, fmt);
      && (EnvCheck(c).Some? ==> r == Run(files, Raised(EnvCheck(c).value)))
      && (EnvCheck(c).None? ==>
            && (r.outcome == Done <==>
                  && EnvShaped(c)
                  && (c.bottomType[1] == '*' ==> |c.bathRanges| == |c.bathDepths|)
                  && (c.sspopt[4] == '*' ==> AtiMatches(c)))
            && (!EnvShaped(c) ==> r.outcome == Raised(IndexError))
            && (EnvShaped(c) && r.outcome != Done ==>
                  r.outcome == if !BtyRaises(c) && c.atiDepths.None? then Raised(TypeError)
                               else Raised(ValueError(RangesMismatch))))
  {
    if EnvCheck(c).None? {
      EnvCompletes(c, fmt);
      var env := EnvEmission(c, fmt);
      if env.outcome == Done {
        var afterEnv := files[EnvPath(c) := env.lines];
        StepOutcomes(afterEnv, c, fmt);
        StepOutcomes(BtyStep(afterEnv, c, fmt).files, c, fmt);
      }
    }
  }

  /** The `.bty` and `.ati` steps each complete unless they are taken and
      their ranges and depths differ in length, and then raise the ranges
      message; a taken `.ati` step with no altimetry raises `TypeError`. */
  lemma StepOutcomes(files: map<Path, seq<string>>, c: RayConfig, fmt: Format)
    requires EnvShaped(c)
    ensures var b := BtyStep(files, c, fmt).outcome;
            && (b == Done <==> (c.bottomType[1] == '*' ==> |c.bathRanges| == |c.bathDepths|))
            && (b != Done ==> b == Raised(ValueError(RangesMismatch)))
    ensures var a := AtiStep(files, c, fmt).outcome;
            && (a == Done <==> (c.sspopt[4] == '*' ==> AtiMatches(c)))
            && (a != Done ==> a == if c.atiDepths.None? then Raised(TypeError) else Raised(ValueError(RangesMismatch)))
  {
  }
}
