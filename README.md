# BELLHOP input writers, ray-file reader and bathymetry grid

This project models the text handling that sits around the BELLHOP-style
acoustic propagation simulator in the `Justin_Work` scripts.

- **`Write_RAY`** (`ray.py`) writes the inputs of a ray-trace run:
  - the `.env` environment file, with title, frequency, option codes, an
    optional surface half-space, the sound-speed (SSP) block, the bottom
    block, the source/receiver geometry and the run options;
  - the `.ssp` profile file;
  - the `.bty` bathymetry and `.ati` altimetry files.

  `write_files` decides which of these it produces.
- **`Write_TL`** (`tl.py`) is the transmission-loss variant:
  - it writes the option strings whole;
  - it gives the bottom half-space as five named fields;
  - it has no surface line and no `.ati` file;
  - it writes `.ssp`, then `.bty`, then `.env`.
- **`Read_RAY.read_ray_file`** reads the `.ray` file the simulator produces:
  - it skips a seven-line header;
  - it then consumes blocks, each an angle line, a count line and that many
    point lines;
  - it returns `ray_data` and `alpha_data`.

  `Read_RAY.R_type` appends one bounce letter to a string.
- **`map_2D`** builds a depth table from (latitude, longitude, depth) rows. The
  table is indexed by the sorted distinct latitudes and longitudes and filled
  in place.

How the model represents these:

- **Files.** The file system is a class `Files.FileStore` whose field `files`
  maps a path to the file's lines, each without its newline. `Open` empties
  a file. `WriteLine` appends one line.
- **Writer methods.** Each writer method is proved against a function that
  gives the file text. That function is an `Emission`: the lines written, and
  whether the call completed or raised. An exception part-way through
  leaves the lines already written in the file.
- **Reading back.** Lemmas state what a reader of the files gets back:
  - the whitespace-split tokens of each line (`Text.Tokens` is Python's
    `str.split()`);
  - the integers the count lines hold;
  - which files a run of `write_files` leaves changed.
- **Number rendering.** `f"{x:.1f}"`, `f"{x:.2f}"` and `f"{x}"` are the three
  functions of a `Text.Format` value. The only thing assumed about them
  (`ValidFormat`) is that each rendering is one non-empty token without
  blanks.
- **Number parsing.** In the reader, Python's `float` and `int` are the two
  functions of a `RayReader.Convert` value.
- **Grid assembly.** `Bathymetry.Map2D` allocates a real `array2` and fills it
  in a loop. It is proved against `Cell`, which gives the depth the table holds
  for a given latitude and longitude.

## Model

| member | source | states |
|---|---|---|
| Files.FileStore.Open | Justin_Work/ray.py:75 | `open(path, 'w')` leaves the file at `path` empty and every other file as it was |
| Files.FileStore.WriteLine | Justin_Work/ray.py:76 | a write ending in a newline appends exactly that line to the open file and changes no other file |
| Files.Overwrite | Justin_Work/ray.py:75 | composition helper (a map-update law): writing a file a second time leaves only the second text |
| Text.IntStrRoundTrip | Justin_Work/ray.py:78 | an integer rendered with `str()` (media count, point counts, beam count) parses back as the same integer |
| Text.JoinPath | Justin_Work/ray.py:67 | `os.path.join(dir, name)` ends in `name` |
| Text.DistinctExtensions | Justin_Work/ray.py:120 | the `.env`, `.ssp`, `.bty` and `.ati` paths built from one directory and file name are pairwise different, so writing one file never touches another |
| EnvLayout.Then | Justin_Work/ray.py:75-114 | a section that raises ends the file at the lines it wrote; otherwise the next section's lines follow it and its outcome is the call's |
| EnvLayout.HalfSpaceTokens | Justin_Work/ray.py:87 | a half-space line splits into depth (one decimal), speed (two decimals), shear, density, attenuation (one decimal), `/`, then the comment's words |
| EnvLayout.PairLines | Justin_Work/ray.py:83-84 | the zipped pairs give one line each, the k-th line from the k-th pair, in input order |
| EnvLayout.PairLineTokens | Justin_Work/ray.py:84 | each pair line reads back as its two values in order, followed by `/` in the `.env` SSP and `.bty`/`.ati` layouts and without it in the `.ssp` layout |
| EnvLayout.PairLinesTokens | Justin_Work/ray.py:83-84 | every line the zipped pairs give reads back as the two values of its own pair, in input order |
| EnvLayout.SeqMin | Justin_Work/ray.py:82 | `min(ssp_depth)` is an element of the depths and no depth is smaller |
| EnvLayout.SeqMax | Justin_Work/ray.py:82 | `max(ssp_depth)` is an element of the depths and no depth is larger |
| EnvLayout.SspHeaderTokens | Justin_Work/ray.py:82 | the SSP header line reads back as the number of depths (which parses back to that number), the minimum and the maximum depth, then the comment |
| EnvLayout.SspBlockLayout | Justin_Work/ray.py:82-85 | the SSP block is the header line, then one `d s /` line per pair in input order, then one blank line, and nothing else |
| EnvLayout.Fixed1sTokens | Justin_Work/ray.py:92 | every one-decimal rendering of a geometry value is a single token |
| EnvLayout.GeometrySectionCount | Justin_Work/ray.py:89-95 | a geometry section is the count line, then one values line only when the list is non-empty, then a blank line; its count line parses back to the caller's count, whatever the list length |
| EnvLayout.SingleValueSection | Justin_Work/tl.py:93-99 | with one value, a section is exactly the count line, the line `x /` plus its comment, and a blank line |
| EnvLayout.SpacedValuesTokens | Justin_Work/ray.py:96-102 | a receiver-depth or range line reads back as every value in order, then `/` and the comment; the non-final values end in a single space |
| EnvLayout.SlashValuesTokens | Justin_Work/ray.py:89-95 | a source-depth line reads back as the first value, then each later value glued behind the `/` that ends the value before it, then `/` and the comment |
| EnvLayout.RunTail | Justin_Work/ray.py:110-114 | the run-option tail completes if and only if there are at least two launch angles; otherwise it raises `IndexError` and holds only the run-type and beams lines |
| EnvLayout.RunTailLines | Justin_Work/ray.py:110-114 | a completed tail is exactly the run-type, beams, launch-angle, blank and step lines, in that order |
| EnvLayout.SspFileLayout | Justin_Work/ray.py:124-128 | a `.ssp` file is exactly N+2 lines: the quoted marker, a count that parses back to N, and one line per pair holding its two values in order |
| EnvLayout.ProfileFileLayout | Justin_Work/ray.py:137-141 | a `.bty`/`.ati` file is exactly N+2 lines: the quoted marker, the count N followed by a comma, and one `r d /` line per pair in order |
| SectionWriters.WritePairs | Justin_Work/ray.py:83-84 | the loop over the zipped pairs appends exactly `PairLines` to the open file and changes no other file |
| SectionWriters.WriteValues | Justin_Work/ray.py:90-94 | the index loop appends one values line, holding every value and the comment after the last, or nothing for an empty list, and changes no other file |
| SectionWriters.WriteGeometry | Justin_Work/ray.py:89-95 | the count line, the index loop with its `i == len-1` test, and the closing newline append exactly one geometry section |
| SectionWriters.WriteSspBlock | Justin_Work/ray.py:82-85 | appends exactly the SSP block |
| SectionWriters.WriteAllGeometry | Justin_Work/ray.py:89-109 | appends the source-depth, receiver-depth and range sections in that order |
| SectionWriters.WriteRunTail | Justin_Work/ray.py:110-114 | appends the lines written before any `IndexError`, and returns that outcome |
| SectionWriters.WriteSspFile | Justin_Work/ray.py:119-128 | a length mismatch raises `ValueError` before the file is opened, so no file changes; otherwise the `.ssp` file holds exactly its layout and nothing else changes |
| SectionWriters.WriteProfileFile | Justin_Work/ray.py:132-141 | the same for `.bty`/`.ati`: a mismatch of ranges and depths raises before opening; otherwise the file holds exactly its layout |
| SectionWriters.UpdateKeeps | Justin_Work/ray.py:158-163 | composition helper (a map-update law): writing one path leaves every other path's contents, and whether it exists, unchanged |
| RayWriter.EnvCheckCases | Justin_Work/ray.py:68-73 | `write_env` raises the length `ValueError` if and only if depths and speeds differ in length; it passes its checks if and only if, in addition, the SSP depths, bathymetry depths and ranges are non-empty |
| RayWriter.EnvOptions | Justin_Work/ray.py:76-81 | the option lines complete if and only if `sspopt` has five characters and, when `sspopt[1]` is `A`, `surface_opt` has five values; otherwise they raise `IndexError`, leaving the title, frequency and media lines for a short `sspopt`, and those plus the SSP option line for a short `surface_opt` |
| RayWriter.EnvHead | Justin_Work/ray.py:76-85 | the head (options and SSP block) completes under the same condition; otherwise it raises `IndexError` with only the option lines written, and no SSP block |
| RayWriter.EnvBottom | Justin_Work/ray.py:86-109 | the bottom and geometry lines complete if and only if `bottom_type` has two characters and `bottom_opt` has five values; a short `bottom_type` raises `IndexError` with no line written, and a short `bottom_opt` after the bottom-type line |
| RayWriter.EnvRun | Justin_Work/ray.py:110-114 | the run lines complete if and only if `ray_compute` has five characters and there are two launch angles; a short `ray_compute` raises `IndexError` with no line written, and missing launch angles after the run-type and beams lines |
| RayWriter.WriteEnv | Justin_Work/ray.py:66-114 | a failed check raises before the file is opened and changes no file; otherwise the `.env` file holds exactly the lines written before any exception, the call returns that outcome, and no other file changes |
| RayWriter.WriteHead | Justin_Work/ray.py:76-85 | appends the head's lines to the open file and returns its outcome |
| RayWriter.WriteOptions | Justin_Work/ray.py:76-81 | appends the option lines (the surface line only for an `A` surface) and returns their outcome |
| RayWriter.WriteBottom | Justin_Work/ray.py:86-109 | appends the bottom-type, bottom and blank lines and the geometry, stopping at the first `IndexError` |
| RayWriter.WriteRun | Justin_Work/ray.py:110-114 | appends the run lines and returns their outcome |
| RayWriter.WriteSsp | Justin_Work/ray.py:119-129 | `write_ssp` on the `.ssp` path: the effect stated for `SectionWriters.WriteSspFile` |
| RayWriter.WriteBty | Justin_Work/ray.py:132-142 | `write_bty` checks `bath_ranges` against `bath_depths` and writes the `.bty` path |
| RayWriter.WriteAti | Justin_Work/ray.py:145-155 | `write_ati` raises `TypeError` before opening when `ati_depths` was left at `None`; otherwise it checks `bath_ranges` against `ati_depths`, pairs those two and writes the `.ati` path |
| RayWriter.WriteFiles | Justin_Work/ray.py:158-163 | the files and outcome after `write_files` are those of `.env`, then `.bty` when `bottom_type[1]` is `*`, then `.ati` when `sspopt[4]` is `*`, stopping at the first exception |
| RayWriter.EnvCompletes | Justin_Work/ray.py:75-114 | once the checks pass, the `.env` text is written completely if and only if every indexed option string and list is long enough; otherwise `IndexError` is raised |
| RayWriter.OptionsLayout | Justin_Work/ray.py:76-81 | the option lines are title, frequency, media count and SSPOPT, then the surface line exactly when `sspopt[1]` is `A` |
| RayWriter.EnvSplitsAtBlock | Justin_Work/ray.py:79-85 | the SSP block directly follows the option lines |
| RayWriter.EnvHeadLines | Justin_Work/ray.py:76-81 | the `.env` file opens with title, frequency, media and SSPOPT lines, with the surface half-space fifth when `sspopt[1]` is `A` |
| RayWriter.EnvBlockFollows | Justin_Work/ray.py:79-85 | the SSP block sits at line 5 with an `A` surface and at line 4 without one, so the SSP header directly follows SSPOPT when there is no surface line |
| RayWriter.EnvSplitsAtBottom | Justin_Work/ray.py:75-114 | a complete `.env` file is head, bottom and run sections in order, and the head is the option lines plus the depths plus 2 lines |
| RayWriter.EnvBottomLines | Justin_Work/ray.py:86-109 | after the SSP block come the bottom-type line, the bottom half-space line, a blank line and the three geometry sections |
| RayWriter.EnvEndLines | Justin_Work/ray.py:110-114 | a complete `.env` file ends with the run-type, beams, launch-angle, blank and step lines |
| RayWriter.HalfSpaceLinesTokens | Justin_Work/ray.py:81 | the surface and bottom half-space lines read back as the five `surface_opt`/`bottom_opt` values in order, then `/` and the comment |
| RayWriter.StepsKeep | Justin_Work/ray.py:160-163 | the `.bty` step changes only the `.bty` path and the `.ati` step only the `.ati` path |
| RayWriter.AfterEnvKeeps | Justin_Work/ray.py:158-163 | after `.env`, `write_files` changes only the `.bty` and `.ati` paths |
| RayWriter.FilesKeepEnv | Justin_Work/ray.py:158-159 | `write_files` always leaves the `.env` text in place and never touches the `.ssp` path; when `.env` raises, nothing else is written |
| RayWriter.FilesBty | Justin_Work/ray.py:160-161 | `.bty` is written with its layout when `bottom_type[1]` is `*` and the lengths agree, and is left untouched otherwise: when `bottom_type[1]` is not `*`, or when the lengths differ and `write_bty` raises before opening |
| RayWriter.FilesAti | Justin_Work/ray.py:162-163 | `.ati` is written with its layout when `sspopt[4]` is `*`, the `.bty` step did not raise, `ati_depths` is present and the lengths agree; otherwise it is left untouched |
| RayWriter.FilesOutcome | Justin_Work/ray.py:158-163 | `write_files` completes if and only if the checks pass, the options are long enough, each requested profile has matching lengths and a requested `.ati` has `ati_depths`; a failed check changes nothing; a short option raises `IndexError`; a missing `ati_depths` raises `TypeError` unless the `.bty` step raised first; a profile mismatch raises `ValueError` |
| TlWriter.WriteEnv | Justin_Work/tl.py:72-118 | a failed check raises before the file is opened and changes no file; otherwise the `.env` file holds exactly the lines written before any exception, and no other file changes |
| TlWriter.WriteHead | Justin_Work/tl.py:82-89 | appends the title, frequency, media and verbatim SSPOPT lines and the SSP block |
| TlWriter.WriteBottom | Justin_Work/tl.py:90-113 | appends the bottom-type, bottom and blank lines and the geometry sections |
| TlWriter.WriteSsp | Justin_Work/tl.py:123-133 | `write_ssp` has the same check and `.ssp` layout as in `Write_RAY` |
| TlWriter.WriteBty | Justin_Work/tl.py:135-145 | `write_bty` has the same check and `.bty` layout as in `Write_RAY` |
| TlWriter.WriteFiles | Justin_Work/tl.py:147-150 | the files and outcome after `write_files` are those of `.ssp`, then `.bty`, then `.env`, stopping at the first exception |
| TlWriter.EnvCompletes | Justin_Work/tl.py:81-118 | once the checks pass, the `.env` text is complete if and only if there are two launch angles; otherwise `IndexError` is raised |
| TlWriter.EnvSplits | Justin_Work/tl.py:82-118 | the `.env` text is the head, then the bottom, then the run tail |
| TlWriter.EnvHeadLines | Justin_Work/tl.py:82-89 | the file opens with title, frequency and media lines and the whole `sspopt` quoted on the fourth line; the SSP block follows directly, so there is never a surface line |
| TlWriter.EnvBottomLines | Justin_Work/tl.py:90-113 | after the SSP block come the whole quoted `bottom_type` with the roughness, the bottom half-space line, a blank line and the geometry sections |
| TlWriter.BottomLineTokens | Justin_Work/tl.py:91 | the bottom line reads back as `bottom_depth`, `bottom_ss`, `bottom_shear`, `bottom_rho`, `bottom_alpha` in that order, then `/` and the comment |
| TlWriter.EnvEndLines | Justin_Work/tl.py:114-118 | a complete file ends with the verbatim run-type, beams, launch-angle, blank and step lines |
| TlWriter.FilesSspFirst | Justin_Work/tl.py:147-148 | an SSP length mismatch raises before any file is written |
| TlWriter.FilesBtyRaises | Justin_Work/tl.py:147-149 | a bathymetry length mismatch raises after `.ssp` has been written: the `.ssp` file is left behind, with no `.bty` or `.env` |
| TlWriter.FilesAfterProfiles | Justin_Work/tl.py:147-150 | with both profiles consistent, `.ssp` and `.bty` are written and then `write_env` runs on the result |
| TlWriter.FilesOutcome | Justin_Work/tl.py:147-150 | `write_files` completes if and only if both length checks hold, the SSP depths and ranges are non-empty and there are two launch angles |
| RayReader.Unpack | Justin_Work/ray.py:207-208 | `a, b, ... = map(conv, toks)` succeeds if and only if there are exactly n tokens that all convert, and then gives the converted values in order; it fails only with `ValueError` |
| RayReader.Slice | Justin_Work/ray.py:223 | Python's list slice: in-range bounds give the sub-sequence, a stop past the end is clipped, and the result is always a contiguous run starting at the start index |
| RayReader.PointOf | Justin_Work/ray.py:224 | a point line reads if and only if it has exactly two tokens that both convert to floats, and gives (range, depth) |
| RayReader.Points | Justin_Work/ray.py:223-226 | a ray's lines read if and only if every line reads, giving one point per line in file order |
| RayReader.PointsFirstError | Justin_Work/ray.py:223-226 | a failing ray raises the error of its first unreadable line, and every line before that line reads |
| RayReader.CountOf | Justin_Work/ray.py:219 | the `npts ndim _` line reads if and only if it has three integer tokens, and the count is the first |
| RayReader.Header | Justin_Work/ray.py:205-211 | the header completes only with at least seven lines, and a file of fewer than two lines raises `IndexError` |
| RayReader.ReadBlock | Justin_Work/ray.py:218-226 | one block moves the cursor forward by at least 2 without passing the end; its ray has one point per line consumed after the two header lines; its angle is the float of the angle line |
| RayReader.Blocks | Justin_Work/ray.py:217-227 | the rays and angles are equally long, and the blocks cover every line from the cursor to the end exactly: two per ray plus its points |
| RayReader.ReadRayFile | Justin_Work/ray.py:199-229 | `ray_data` and `alpha_data` have equal length, and the header, the block headers and the points account for every line of the file |
| RayReader.BlocksStep | Justin_Work/ray.py:217-227 | the result from a cursor is the block read there followed by the result from the next cursor, or the block's error |
| RayReader.FirstBlock | Justin_Work/ray.py:217-227 | the first ray and angle returned are those of the block at the cursor |
| RayReader.ReadBlockAt | Justin_Work/ray.py:218-226 | one pass of the `while` body computes the block `ReadBlock` specifies |
| RayReader.ReadPoints | Justin_Work/ray.py:223-226 | the `for` loop over the sliced lines reads `Points`, and the cursor ends one past the last point line |
| RayReader.ReadRay | Justin_Work/ray.py:199-229 | the `while line <= len(lines)-1` loop returns exactly `ReadRayFile` |
| RayReader.RayBodyLines | Justin_Work/ray.py:221-226 | with a non-negative count, the cursor stops after the count's lines or at the end of the file, and point j comes from the j-th line after the block header |
| RayReader.BlockExact | Justin_Work/ray.py:218-226 | when the file holds the declared `npts` lines, the ray has exactly `npts` points, taken in file order, and the cursor moves past them |
| RayReader.BlockTruncated | Justin_Work/ray.py:221-226 | when the file ends before `npts` lines, no error is raised: the ray keeps the lines that remain and the cursor reaches the end |
| RayReader.TruncatedIsLast | Justin_Work/ray.py:217-227 | so a truncated block is the last ray returned |
| RayReader.RType | Justin_Work/ray.py:308-314 | `R_type` keeps the string and appends exactly one character, `B` if and only if `up_down == 1` and `S` otherwise |
| Bathymetry.Lats | Justin_Work/bathymetry.py:15 | the latitude column has one entry per row, in order |
| Bathymetry.Lons | Justin_Work/bathymetry.py:16 | the longitude column has one entry per row, in order |
| Bathymetry.Insert | Justin_Work/bathymetry.py:20 | adding a value to a sorted duplicate-free axis keeps it sorted and duplicate-free, and adds exactly that value |
| Bathymetry.Unique | Justin_Work/bathymetry.py:20-21 | `np.unique` is strictly increasing and holds exactly the values of the column |
| Bathymetry.Where | Justin_Work/bathymetry.py:26-27 | `np.where(axis == x)[0]` holds exactly the positions holding `x`, in increasing order |
| Bathymetry.WhereAbsent | Justin_Work/bathymetry.py:26-27 | a value not on the axis has no position |
| Bathymetry.WhereSingle | Justin_Work/bathymetry.py:26-27 | on a strictly increasing axis, a value at position i is found at i and nowhere else |
| Bathymetry.AxisIndex | Justin_Work/bathymetry.py:26-28 | each lookup returns exactly one index, and that index is the only one holding the value |
| Bathymetry.RowOnAxes | Justin_Work/bathymetry.py:20-27 | every row's latitude and longitude occur on the axes, so its lookups succeed |
| Bathymetry.LastWriteWins | Justin_Work/bathymetry.py:25-28 | when several rows share a cell, the cell holds the depth of the last of them in input order |
| Bathymetry.UntouchedIsZero | Justin_Work/bathymetry.py:23-28 | a cell no row maps to keeps the 0 it started with |
| Bathymetry.CellStep | Justin_Work/bathymetry.py:25-28 | writing one more row changes only the cell that row maps to |
| Bathymetry.WriteRow | Justin_Work/bathymetry.py:25-28 | one pass of the loop: if the table held the cells of the first l rows, it then holds the cells of the first l+1 rows |
| Bathymetry.Map2D | Justin_Work/bathymetry.py:15-30 | the returned axes are the unique latitudes and longitudes; the new table has their dimensions; each cell holds the depth `Cell` gives, so it is 0 where no row maps and the last row's depth otherwise |

## Left out

- Exact float rendering and parsing are not modelled. `:.1f`, `:.2f` and `str()` of a float are the parameters of `Text.Format`, each assumed to give one token without blanks. Python's `float()` and `int()` are the parameters of `RayReader.Convert`, so rounding, exponents, underscores and Unicode digits are not modelled.
- The `print` calls after each file is written, the file-system errors `open` can raise, and `readlines()` itself are not modelled. The reader takes the list of lines as given.
- The unused `max_depth`, `min_depth` and `max_range` locals of `write_env` are modelled only by the exception `np.max` raises on an empty array (`ValueError`). A non-numeric array is not modelled.
- `opt4` is stored by `Write_RAY.__init__` and never read, so it is not part of `RayConfig`.
- Every argument of `Write_RAY.__init__` except `pair` defaults to `None`. `pair` defaults to `'L'` in the source. It is a `RayConfig` field the caller supplies, so the default itself is not modelled. Only `ati_depths` is optional in `RayConfig`: a missing one makes `write_ati` raise `TypeError`. Every other attribute is assumed supplied with its type, so the `TypeError` that `len()`, indexing or formatting of a `None` raises is not modelled for them. `Write_TL` has no `None` defaults.
- The `i is len(...)-1` test in the geometry loops is modelled as integer equality. CPython caches only small integers, so for lists of more than 257 values the source's identity test can be false where equality is true.
- Several `f.write` calls that together make one line (the source depths, receiver depths and ranges) are modelled as one line, and so is a line's newline.
- `Text.Tokens` splits on space, tab, newline and carriage return. `str.split()` also splits on vertical tab, form feed and other Unicode blanks, which are not modelled.
- `Text.JoinPath` models `os.path.join` with one component on a POSIX path.
- `ValueError` messages are modelled as the kinds of `Common.Message`. `Common.MessageText` gives each kind its text. The writers' own messages are kept word for word. The messages that `int()`, `float()` and tuple unpacking raise, which quote the offending input, are shortened to fixed texts.
- In `map_2D`, NumPy fancy indexing with the one-element index arrays `np.where` returns is modelled as scalar indexing. `AxisIndex` proves that those arrays have exactly one element. The `pd.read_excel` call is left out: `Map2D` takes the rows as given. NaN values, which `np.unique` and `==` treat specially, are not modelled (depths and coordinates are reals).
- Several parts of the repository are not part of this model:
  - the `.shd` reader `Read_TL.read_shd`;
  - all plotting;
  - `map_1D`;
  - the GUI in `Justin_Work/App/main.py`;
  - the scripts `arms_RAY.py` and `arms_TL.py`.
- RayReader.Header: its contract states only the facts the later proofs need. The body gives each header line's error in source order.
- The reader does not check the declared ray length. When the file ends before a ray's `npts` point lines, `read_ray_file` returns the shorter ray and raises nothing. `BlockTruncated` and `TruncatedIsLast` state this behaviour of the code.
