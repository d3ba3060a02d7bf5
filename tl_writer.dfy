/** `Write_TL`: writes the transmission-loss input files of the propagation
    simulator — the `.ssp` and `.bty` files first, then the `.env` file.
    Unlike `Write_RAY`, it writes the SSP option, bottom type and run type
    strings whole, gives the bottom half-space as separate values, has no
    surface line and no `.ati` file. */
module TlWriter {
  import opened Common
  import opened Text
  import opened Words
  import opened Files
  import opened EnvLayout
  import opened SectionWriters

  /** The attributes `Write_TL.__init__` stores. */
  datatype TlConfig = TlConfig(
    dir: string, filename: string,
    sspDepths: seq<real>, ssp: seq<real>,
    bathRanges: seq<real>, bathDepths: seq<real>,
    freq: real, nmedia: int, sspopt: string,
    bottomType: string, roughness: real,
    bottomDepth: real, bottomSs: real, bottomAlpha: real, bottomRho: real, bottomShear: real,
    nsd: int, sd: seq<real>, nrd: int, rd: seq<real>, nrr: int, rr: seq<real>,
    rayCompute: string, numBeams: int, launchAngles: seq<real>,
    stepSize: real, maxDepth: real, maxRange: real,
    pair: string)

  function EnvPath(c: TlConfig): Path { JoinPath(c.dir, c.filename + ".env") }
  function SspPath(c: TlConfig): Path { JoinPath(c.dir, c.filename + ".ssp") }
  function BtyPath(c: TlConfig): Path { JoinPath(c.dir, c.filename + ".bty") }

  const BottomTypeComment := "\t\t\t! BOTTOM TYPE ('A' = fluid), roughness"
  const BottomComment := Tabs + "! Bottom depth, sound speed, shear speed, density"

  /** The checks `write_env` makes before it opens the file: the length
      check, then `np.max` over the SSP depths, the bathymetry depths and the
      bathymetry ranges, which raises on an empty array. */
  function EnvCheck(c: TlConfig): Option<Error> {
    if |c.sspDepths| != |c.ssp| then Some(ValueError(SpeedsMismatch))
    else if |c.sspDepths| == 0 || |c.bathDepths| == 0 || |c.bathRanges| == 0 then Some(ValueError(ZeroSizeMax))
    else None
  }

  /** The bottom half-space: depth, sound speed, shear speed, density and
      attenuation, in that order. */
  function BottomLine(c: TlConfig, fmt: Format): string {
    HalfSpaceLine(c.bottomDepth, c.bottomSs, c.bottomShear, c.bottomRho, c.bottomAlpha, BottomComment, fmt)
  }

  /** Title, frequency, media and SSP option lines, then the SSP block. */
  function EnvHead(c: TlConfig, fmt: Format): seq<string>
    requires EnvCheck(c).None?
  {
    [TitleLine(c.filename), FreqLine(c.freq, fmt), NMediaLine(c.nmedia), SspOptLine(c.sspopt)]
      + SspBlock(c.sspDepths, c.ssp, fmt)
  }

  /** The bottom type and half-space lines, a blank line and the geometry. */
  function EnvBottom(c: TlConfig, fmt: Format): seq<string> {
    [BottomTypeLine(c.bottomType, c.roughness, BottomTypeComment, fmt), BottomLine(c, fmt), ""]
      + Geometry(c.nsd, c.sd, c.nrd, c.rd, c.nrr, c.rr, fmt)
  }

  /** The `.env` text `write_env` produces once its checks have passed.  The
      only indexing is of the launch angles: with fewer than two, the file
      stops after the beams line and `IndexError` is raised. */
  function EnvEmission(c: TlConfig, fmt: Format): Emission
    requires EnvCheck(c).None?
  {
    Then(Emission(EnvHead(c, fmt), Done),
         Then(Emission(EnvBottom(c, fmt), Done),
              RunTail(c.rayCompute, c.numBeams, c.launchAngles, c.stepSize, c.maxDepth, c.maxRange, fmt)))
  }

  // ---------------------------------------------------------------------
  // The writers

  /** `write_env`. */
  method WriteEnv(fs: FileStore, c: TlConfig, fmt: Format) returns (out: Outcome)
    modifies fs
    ensures EnvCheck(c).Some? ==> out == Raised(EnvCheck(c).value) && fs.files == old(fs.files)
    ensures EnvCheck(c).None? ==>
      && out == EnvEmission(c, fmt).outcome
      && fs.files == old(fs.files)[EnvPath(c) := EnvEmission(c, fmt).lines]
  {
    var path := EnvPath(c);
    if |c.sspDepths| != |c.ssp| {
      return Raised(ValueError(SpeedsMismatch));
    }
    if |c.sspDepths| == 0 || |c.bathDepths| == 0 || |c.bathRanges| == 0 {
      return Raised(ValueError(ZeroSizeMax));
    }
    ghost var before := fs.files;
    fs.Open(path);
    ghost var head := EnvHead(c, fmt);
    ghost var bottom := EnvBottom(c, fmt);
    ghost var run := RunTail(c.rayCompute, c.numBeams, c.launchAngles, c.stepSize, c.maxDepth, c.maxRange, fmt);
    assert EnvEmission(c, fmt) == Then(Emission(head, Done), Then(Emission(bottom, Done), run));
    WriteHead(fs, path, c, fmt);
    assert [] + head == head;
    Overwrite(before, path, [], head);
    WriteBottom(fs, path, c, fmt);
    Overwrite(before, path, head, head + bottom);
    out := WriteRunTail(fs, path, c.rayCompute, c.numBeams, c.launchAngles, c.stepSize, c.maxDepth, c.maxRange, fmt);
    Overwrite(before, path, head + bottom, head + bottom + run.lines);
    Assoc(head, bottom, run.lines);
  }

  /** The lines of `write_env` up to the SSP block's closing blank line. */
  method WriteHead(fs: FileStore, path: Path, c: TlConfig, fmt: Format)
    requires EnvCheck(c).None? && path in fs.files
    modifies fs
    ensures fs.files == old(fs.files)[path := old(fs.files)[path] + EnvHead(c, fmt)]
  {
    ghost var before := fs.files;
    ghost var start := fs.files[path];
    assert fs.files == before[path := start];
    var title := TitleLine(c.filename);
    var freq := FreqLine(c.freq, fmt);
    var media := NMediaLine(c.nmedia);
    var opt := SspOptLine(c.sspopt);
    WriteTracked(fs, path, title, before, start);
    WriteTracked(fs, path, freq, before, start + [title]);
    WriteTracked(fs, path, media, before, start + [title] + [freq]);
    WriteTracked(fs, path, opt, before, start + [title] + [freq] + [media]);
    ghost var w := [title, freq, media, opt];
    assert start + [title] + [freq] + [media] + [opt] == start + w;
    WriteSspBlock(fs, path, c.sspDepths, c.ssp, fmt);
    Assoc(start, w, SspBlock(c.sspDepths, c.ssp, fmt));
  }

  /** The bottom lines and the geometry of `write_env`. */
  method WriteBottom(fs: FileStore, path: Path, c: TlConfig, fmt: Format)
    requires path in fs.files
    modifies fs
    ensures fs.files == old(fs.files)[path := old(fs.files)[path] + EnvBottom(c, fmt)]
  {
    ghost var before := fs.files;
    ghost var start := fs.files[path];
    assert fs.files == before[path := start];
    var kind := BottomTypeLine(c.bottomType, c.roughness, BottomTypeComment, fmt);
    var bottom := BottomLine(c, fmt);
    WriteTracked(fs, path, kind, before, start);
    WriteTracked(fs, path, bottom, before, start + [kind]);
    WriteTracked(fs, path, "", before, start + [kind] + [bottom]);
    Snoc3(start, kind, bottom, "");
    var geometry := Geometry(c.nsd, c.sd, c.nrd, c.rd, c.nrr, c.rr, fmt);
    WriteAllGeometry(fs, path, c.nsd, c.sd, c.nrd, c.rd, c.nrr, c.rr, fmt);
    Assoc(start, [kind, bottom, ""], geometry);
  }

  /** `write_ssp`. */
  method WriteSsp(fs: FileStore, c: TlConfig, fmt: Format) returns (out: Outcome)
    modifies fs
    ensures Run(fs.files, out) == SspRun(old(fs.files), SspPath(c), c.pair, c.sspDepths, c.ssp, fmt)
  {
    out := WriteSspFile(fs, SspPath(c), c.pair, c.sspDepths, c.ssp, fmt);
  }

  /** `write_bty`. */
  method WriteBty(fs: FileStore, c: TlConfig, fmt: Format) returns (out: Outcome)
    modifies fs
    ensures Run(fs.files, out) == ProfileRun(old(fs.files), BtyPath(c), c.pair, c.bathRanges, c.bathDepths, fmt)
  {
    out := WriteProfileFile(fs, BtyPath(c), c.pair, c.bathRanges, c.bathDepths, fmt);
  }

  /** The `.env` step of `write_files`. */
  function EnvStep(files: map<Path, seq<string>>, c: TlConfig, fmt: Format): Run {
    match EnvCheck(c)
    case Some(e) => Run(files, Raised(e))
    case None => Run(files[EnvPath(c) := EnvEmission(c, fmt).lines], EnvEmission(c, fmt).outcome)
  }

  /** The effect of `write_files` on a file system: the `.ssp` file, the
      `.bty` file, then the `.env` file; an exception ends the sequence. */
  function FilesRun(files: map<Path, seq<string>>, c: TlConfig, fmt: Format): Run {
    var ssp := SspRun(files, SspPath(c), c.pair, c.sspDepths, c.ssp, fmt);
    if ssp.outcome != Done then ssp
    else
      var bty := ProfileRun(ssp.files, BtyPath(c), c.pair, c.bathRanges, c.bathDepths, fmt);
      if bty.outcome != Done then bty
      else EnvStep(bty.files, c, fmt)
  }

  /** `write_files`. */
  method WriteFiles(fs: FileStore, c: TlConfig, fmt: Format) returns (out: Outcome)
    modifies fs
    ensures Run(fs.files, out) == FilesRun(old(fs.files), c, fmt)
  {
    out := WriteSsp(fs, c, fmt);
    if out != Done {
      return;
    }
    out := WriteBty(fs, c, fmt);
    if out != Done {
      return;
    }
    out := WriteEnv(fs, c, fmt);
  }

  // ---------------------------------------------------------------------
  // Properties

  /** Once its checks pass, `write_env` completes exactly when there are at
      least two launch angles, and otherwise raises `IndexError`. */
  lemma EnvCompletes(c: TlConfig, fmt: Format)
    requires EnvCheck(c).None?
    ensures EnvEmission(c, fmt).outcome == Done <==> |c.launchAngles| >= 2
    ensures EnvEmission(c, fmt).outcome != Done ==> EnvEmission(c, fmt).outcome == Raised(IndexError)
  {
    var run := RunTail(c.rayCompute, c.numBeams, c.launchAngles, c.stepSize, c.maxDepth, c.maxRange, fmt);
    assert EnvEmission(c, fmt).outcome == run.outcome;
  }

  /** The `.env` text is its head, its bottom part and its run tail. */
  lemma EnvSplits(c: TlConfig, fmt: Format)
    requires EnvCheck(c).None?
    ensures EnvEmission(c, fmt).lines == EnvHead(c, fmt) + EnvBottom(c, fmt)
              + RunTail(c.rayCompute, c.numBeams, c.launchAngles, c.stepSize, c.maxDepth, c.maxRange, fmt).lines
  {
    var run := RunTail(c.rayCompute, c.numBeams, c.launchAngles, c.stepSize, c.maxDepth, c.maxRange, fmt);
    assert EnvEmission(c, fmt) == Then(Emission(EnvHead(c, fmt), Done), Then(Emission(EnvBottom(c, fmt), Done), run));
    Assoc(EnvHead(c, fmt), EnvBottom(c, fmt), run.lines);
  }

  /** The head of the `.env` file: the SSP option line at index 3 holds the
      whole option string, and the SSP block follows directly at index 4. */
  lemma EnvHeadLines(c: TlConfig, fmt: Format)
    requires EnvCheck(c).None?
    ensures var lines := EnvEmission(c, fmt).lines;
            var n := |c.sspDepths| + 2;
            && |lines| >= 4 + n
            && lines[..4] == [TitleLine(c.filename), FreqLine(c.freq, fmt), NMediaLine(c.nmedia),
                              Quoted(c.sspopt) + SspOptComment]
            && lines[4..4 + n] == SspBlock(c.sspDepths, c.ssp, fmt)
  {
    var w := [TitleLine(c.filename), FreqLine(c.freq, fmt), NMediaLine(c.nmedia), SspOptLine(c.sspopt)];
    var block := SspBlock(c.sspDepths, c.ssp, fmt);
    var rest := EnvBottom(c, fmt)
      + RunTail(c.rayCompute, c.numBeams, c.launchAngles, c.stepSize, c.maxDepth, c.maxRange, fmt).lines;
    EnvSplits(c, fmt);
    Assoc(w + block, EnvBottom(c, fmt),
          RunTail(c.rayCompute, c.numBeams, c.launchAngles, c.stepSize, c.maxDepth, c.maxRange, fmt).lines);
    Middle(w, block, rest);
    assert |block| == |c.sspDepths| + 2;
  }

  /** Behind the SSP block come the bottom type line with the whole bottom
      type string, the half-space line, a blank line and the geometry. */
  lemma EnvBottomLines(c: TlConfig, fmt: Format)
    requires EnvCheck(c).None?
    ensures var lines := EnvEmission(c, fmt).lines;
            var k := 4 + |c.sspDepths| + 2;
            var geometry := Geometry(c.nsd, c.sd, c.nrd, c.rd, c.nrr, c.rr, fmt);
            && |lines| >= k + 3 + |geometry|
            && lines[k] == Quoted(c.bottomType) + (" " + (fmt.show(c.roughness) + BottomTypeComment))
            && lines[k + 1] == BottomLine(c, fmt)
            && lines[k + 2] == ""
            && lines[k + 3..k + 3 + |geometry|] == geometry
  {
    var head := EnvHead(c, fmt);
    var run := RunTail(c.rayCompute, c.numBeams, c.launchAngles, c.stepSize, c.maxDepth, c.maxRange, fmt).lines;
    var geometry := Geometry(c.nsd, c.sd, c.nrd, c.rd, c.nrr, c.rr, fmt);
    var front := [BottomTypeLine(c.bottomType, c.roughness, BottomTypeComment, fmt), BottomLine(c, fmt), ""];
    EnvSplits(c, fmt);
    assert |head| == 4 + |c.sspDepths| + 2;
    Assoc(head, front, geometry);
    Middle(head + front, geometry, run);
    Within(head, front, geometry + run, 0);
    Within(head, front, geometry + run, 1);
    Within(head, front, geometry + run, 2);
  }

  /** The bottom half-space line splits into depth, sound speed, shear speed,
      density and attenuation, in that order, then "/" and the comment. */
  lemma BottomLineTokens(c: TlConfig, fmt: Format)
    requires ValidFormat(fmt)
    ensures Tokens(BottomLine(c, fmt))
         == [fmt.fixed1(c.bottomDepth), fmt.fixed2(c.bottomSs), fmt.fixed1(c.bottomShear),
             fmt.fixed1(c.bottomRho), fmt.fixed1(c.bottomAlpha), "/"] + Tokens(BottomComment)
  {
    HalfSpaceTokens(c.bottomDepth, c.bottomSs, c.bottomShear, c.bottomRho, c.bottomAlpha, BottomComment, fmt);
  }

  /** A complete `.env` file ends with the run type line, holding the whole
      run type string, then the beams, launch angle, blank and step lines. */
  lemma EnvEndLines(c: TlConfig, fmt: Format)
    requires EnvCheck(c).None? && |c.launchAngles| >= 2
    ensures var lines := EnvEmission(c, fmt).lines;
            && |lines| >= 5
            && lines[|lines| - 5..] == [Quoted(c.rayCompute) + RunOptionComment, BeamsLine(c.numBeams),
                                        LaunchLine(c.launchAngles[0], c.launchAngles[1], fmt), "",
                                        StepLine(c.stepSize, c.maxDepth, c.maxRange, fmt)]
  {
    var run := RunTail(c.rayCompute, c.numBeams, c.launchAngles, c.stepSize, c.maxDepth, c.maxRange, fmt).lines;
    EnvSplits(c, fmt);
    RunTailLines(c.rayCompute, c.numBeams, c.launchAngles, c.stepSize, c.maxDepth, c.maxRange, fmt);
    Middle(EnvHead(c, fmt), EnvBottom(c, fmt), run);
    assert |EnvHead(c, fmt) + EnvBottom(c, fmt) + run| - 5 == |EnvHead(c, fmt)| + |EnvBottom(c, fmt)|;
  }

  /** `write_files` writes the `.ssp` file first: on an SSP length mismatch
      it raises before any file is touched. */
  lemma FilesSspFirst(files: map<Path, seq<string>>, c: TlConfig, fmt: Format)
    requires |c.sspDepths| != |c.ssp|
    ensures FilesRun(files, c, fmt) == Run(files, Raised(ValueError(SpeedsMismatch)))
  {
  }

  /** A bathymetry length mismatch raises after the `.ssp` file is written
      and before the `.env` file is touched. */
  lemma FilesBtyRaises(files: map<Path, seq<string>>, c: TlConfig, fmt: Format)
    requires |c.sspDepths| == |c.ssp| && |c.bathRanges| != |c.bathDepths|
    ensures var r := FilesRun(files, c, fmt);
            && r.outcome == Raised(ValueError(RangesMismatch))
            && r.files == files[SspPath(c) := SspFileLines(c.pair, c.sspDepths, c.ssp, fmt)]
  {
  }

  /** With matching lengths, `write_files` leaves the `.ssp` and `.bty` files
      written, and then either the `.env` file as `write_env` leaves it or,
      when an array `write_env` takes the maximum of is empty, the `.env`
      path as it was with `ValueError` raised. */
  lemma FilesAfterProfiles(files: map<Path, seq<string>>, c: TlConfig, fmt: Format)
    requires |c.sspDepths| == |c.ssp| && |c.bathRanges| == |c.bathDepths|
    ensures var r := FilesRun(files, c, fmt);
            var profiles := files[SspPath(c) := SspFileLines(c.pair, c.sspDepths, c.ssp, fmt)]
                                 [BtyPath(c) := ProfileFileLines(c.pair, c.bathRanges, c.bathDepths, fmt)];
            && (EnvCheck(c).Some? ==> r == Run(profiles, Raised(ValueError(ZeroSizeMax))))
            && (EnvCheck(c).None? ==>
                  r == Run(profiles[EnvPath(c) := EnvEmission(c, fmt).lines], EnvEmission(c, fmt).outcome))
  {
  }

  /** `write_files` completes exactly when both length checks pass, none of
      the arrays `write_env` takes the maximum of is empty, and there are at
      least two launch angles. */
  lemma FilesOutcome(files: map<Path, seq<string>>, c: TlConfig, fmt: Format)
    ensures FilesRun(files, c, fmt).outcome == Done <==>
      && |c.sspDepths| == |c.ssp| && |c.bathRanges| == |c.bathDepths|
      && |c.sspDepths| > 0 && |c.bathRanges| > 0
      && |c.launchAngles| >= 2
  {
    if EnvCheck(c).None? {
      EnvCompletes(c, fmt);
    }
  }
}
