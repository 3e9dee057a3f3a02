# pyxfoil command-script builder, in Dafny

pyxfoil drives the XFOIL airfoil analysis program by building one text
script of XFOIL commands and piping it to the executable. This project
models how that script is built: the `Xfoil` class of `pyxfoil.py`, its
file-naming methods, the path helpers that turn a geometry file path into
an airfoil name, and the two drivers `GetPolar` and `main` that compose the
builder methods into a whole session. The model stops at the finished
buffer. Running XFOIL on it is outside the model.

Layout:

- `wrappers.dfy`, module `Wrappers`: `Option`, `Result` and `Outcome`.
- `numbers.dfy`, module `Numbers`. Python `int`/`float` values are `Num`.
  `str()` of an int is modelled exactly by `DecimalString`. Every
  floating-point conversion (`str()` of a float, `{:1.2e}`, `{:1.1f}`,
  `{:1.2f}`) is a function field of a `Formats` value given at
  construction.
- `paths.dfy`, module `Paths`:
  - `split('/')` and `'/'.join`;
  - `GetParentDir` and the directory prefixes of `MakeOutputDir`, each with
    its loop;
  - `FindBetween(foil, parent, '\.')` as a leftmost regex search with a
    literal lookbehind.
- `lines.dfy`, module `Lines`:
  - the flat script as the concatenation of newline-terminated lines, and
    reading it back;
  - the number of lines Python's text-mode iteration gives a file (`\n`,
    `\r\n` and a lone `\r` each end a line).
- `xfoil.dfy`, module `Pyxfoil`: class `Xfoil`. Its mutable state is
  - `input`: the buffer, one entry per command line;
  - `alfs`: `self.alfs`, absent until `Polar` runs;
  - `disk`: the files on disk, a map from path to contents. It stands for
    `os.path.isfile`, reading the geometry file and `os.remove`.

  The run parameters are constants. So are `name` and `savepath`, which
  the constructor derives from them. Every builder method states the new
  buffer as the old buffer plus a list of lines.
- `sessions.dfy`, module `Sessions`: `GetPolar` and `main`, with the whole
  script each one builds.

`sys.exit` in `LoadGeom` becomes a `Failure` value (`GeometryFileMissing`
or `GeometryFileEmpty`). So does the `IndexError` an empty angle list
raises in `SaveNamePolar` or at `alfs[0]` in `main` (`NoAngles`).

The model keeps these quirks of the code:

- `SaveGeom` emits `save` only when the file is absent **and** `overwrite`
  is set (pyxfoil.py:239). Its docstring promises to overwrite an existing
  file.
- The surface-pressure file name has no `_` between the Reynolds number
  and `a` (pyxfoil.py:334).
- `main` enters the `oper` menu twice, because `Polar` always calls
  `EnterOperMenu` (pyxfoil.py:279, 456-458).

## Model

| member | source | states |
|---|---|---|
| Numbers.DigitsRoundTrip | pyxfoil.py:252 | reading back the decimal digits `str()` gives a natural number yields that number |
| Numbers.DecimalStringInjective | pyxfoil.py:252 | different iteration counts give different `iter` arguments |
| Numbers.DecimalString | pyxfoil.py:252 | `str()` of an int is non-empty and starts with `-` exactly when the int is negative |
| Numbers.Show | pyxfoil.py:250-260 | `'{}'.format(n)` of an int is non-empty, starts with `-` exactly when it is negative, and for a non-negative int reads back as n; a float goes through the supplied `str()` |
| Paths.Split | pyxfoil.py:64 | `split('/')` gives at least one component, and no component holds a `/` |
| Paths.SplitJoin | pyxfoil.py:76 | joining the `/`-separated components again gives back the path |
| Paths.ParentDirSplitsPath | pyxfoil.py:73-81 | the parent directory is a prefix of the path, is empty or ends in `/`, and is followed by no `/`; it is empty exactly when the path has no `/` |
| Paths.GetParentDir | pyxfoil.py:73-81 | the loop's result is every component but the last, each followed by `/`: the longest prefix ending in `/` |
| Paths.MakeOutputDir | pyxfoil.py:59-71 | one directory attempt per component, in order; attempt k is the first k+1 components, each with a `/`; each attempt strictly extends the previous one; the last is the whole directory plus `/` |
| Paths.TerminatedSplit | pyxfoil.py:64-67 | every component of a path, each followed by `/`, spells the path plus one `/` |
| Paths.DotAhead | pyxfoil.py:95 | the lazy `.*?` before `(?=\.)` stops at the first `.` at or after the start, with no newline and no `.` before it; it finds a stop exactly when some `.` follows with no newline before it |
| Paths.SearchFrom | pyxfoil.py:95-99 | the text the search returns never holds a `.` or a newline |
| Paths.SearchFromFound | pyxfoil.py:95-99 | unless it is `"No Match"`, the text the search returns occurs in the string right after `before` and right before a `.` |
| Paths.FindBetweenDot | pyxfoil.py:95-99 | `FindBetween(s, before, '\.')` returns `"No Match"` or a text with no `.` and no newline |
| Paths.SearchWithoutDot | pyxfoil.py:95-99 | with no `.` after the start, the search gives `"No Match"` |
| Paths.MatchUpToFirstDot | pyxfoil.py:95-97 | when a `.` follows p with no newline before it, the match that starts at p is the text from p up to, but not including, the first `.`, with no `.` and no newline in it |
| Paths.FileStem | pyxfoil.py:169-170 | for any path: when a `.` follows the parent directory with no newline before it, the name is the file name's text before its first `.`; otherwise it is `"No Match"`, except that a path with no `/` whose first line has no `.` is searched on from just after its first newline; dots in directory names never matter |
| Lines.FlattenAppend | pyxfoil.py:192 | the script text of two batches of lines is the text of the first followed by the text of the second |
| Lines.FlattenSnoc | pyxfoil.py:188-192 | adding one command adds exactly `cmd + "\n"` to the script text |
| Lines.ReadFlatten | pyxfoil.py:188-192 | splitting the script text at newlines gives back exactly the commands added, when no command holds a newline |
| Lines.CountLines | pyxfoil.py:226 | a file has no more lines than characters, and no lines exactly when it is empty |
| Lines.FirstLineIsAll | pyxfoil.py:226 | the first line of a file is the whole file exactly when no line ends before the last character |
| Lines.FewerThanTwoLines | pyxfoil.py:226 | a file has fewer than two lines exactly when no line ends before its last character |
| Pyxfoil.AirfoilName | pyxfoil.py:163-170 | a NACA name is `naca` followed by the digits; a name taken from a file path holds no `.` and no newline |
| Pyxfoil.GeometryAccepted | pyxfoil.py:217-229 | the geometry is accepted exactly when it is a NACA airfoil, or when the file exists and has at least two lines; a rejection names a missing file, or else an empty one |
| Pyxfoil.RemovedIfOverwrite | pyxfoil.py:285-286 | with overwrite, the polar file no longer exists afterwards; without, the same files exist; no other file's contents change |
| Pyxfoil.Xfoil.Init | pyxfoil.py:156-182 | the run parameters are stored, the buffer is empty or just the graphics block when headless, and `alfs` is unset |
| Pyxfoil.Xfoil.Create | pyxfoil.py:119-186 | construction succeeds exactly when the geometry check passes, and otherwise fails with the check's error; on success the buffer is the graphics block (when headless) followed by the one load command, and the files on disk are unchanged |
| Pyxfoil.Xfoil.AddInput | pyxfoil.py:188-192 | the buffer gains exactly one line `cmd` at the end, and nothing else changes |
| Pyxfoil.Xfoil.LoadGeom | pyxfoil.py:214-232 | the outcome is the geometry check; on success exactly `naca <foil>` or `load <foil>` is appended; on failure the buffer is unchanged |
| Pyxfoil.Xfoil.SaveGeom | pyxfoil.py:234-240 | `save <SaveNameGeom>` is appended when the geometry file is absent and overwrite is set, and nothing is appended otherwise |
| Pyxfoil.Xfoil.EnterOperMenu | pyxfoil.py:242-252 | appends `oper`, then `visc <Re>` only when Re is non-zero, then `iter <Iter>` |
| Pyxfoil.Xfoil.SingleAlfa | pyxfoil.py:254-263 | appends `alfa <a>`, then `cpwr <SaveNameSurfCp(a)>` exactly when SaveCP is set |
| Pyxfoil.Xfoil.SaveNamePolar | pyxfoil.py:337-352 | a polar name exists exactly when the angle list is non-empty; an empty list raises |
| Pyxfoil.Xfoil.SweepLinesSnoc | pyxfoil.py:296-298 | one more angle at the end of the list adds its SingleAlfa block at the end of the sweep |
| Pyxfoil.Xfoil.SingleAlfaEach | pyxfoil.py:296-298 | the loop appends one SingleAlfa block per angle, in the order given |
| Pyxfoil.Xfoil.Polar | pyxfoil.py:265-302 | stores the angles (a scalar as a one-element list) and enters the oper menu; for an empty list it then fails, leaving the files alone; otherwise it appends `pacc`, the polar name and a blank, then the sweep, then `pacc`, and removes the polar file when overwrite is set |
| Pyxfoil.Xfoil.Quit | pyxfoil.py:304-311 | appends four blank lines, then `quit` |
| Pyxfoil.Xfoil.TurnOffGraphics | pyxfoil.py:313-322 | appends `plop`, `g f`, and a blank line |
| Pyxfoil.OperLinesViscous | pyxfoil.py:242-252 | the oper block has 3 lines for a viscous run and 2 for an inviscid one; it starts with `oper` and ends with `iter <Iter>`; it has one `visc` command exactly when Re is non-zero |
| Pyxfoil.SweepLinesPaired | pyxfoil.py:296-298 | with SaveCP the sweep has two lines per angle, in the given order: line 2i is `alfa <a_i>`, line 2i+1 is `cpwr` with the single-angle name of a_i |
| Pyxfoil.SweepLinesAlfaOnly | pyxfoil.py:296-298 | without SaveCP the sweep has one line per angle, in the given order: line i is `alfa <a_i>` |
| Pyxfoil.SweepLinesCommands | pyxfoil.py:254-263 | every sweep line is an `alfa` or a `cpwr` command |
| Pyxfoil.SweepLinesExclude | pyxfoil.py:296-298 | no command starting with a letter other than `a` or `c` occurs in the sweep |
| Pyxfoil.PolarHeaderTogglesOnce | pyxfoil.py:279-292 | the oper block, `pacc`, the polar name and a blank hold `pacc` exactly once |
| Pyxfoil.PolarLinesToggleTwice | pyxfoil.py:288-302 | the same `pacc` token opens and closes accumulation, and appears exactly twice |
| Pyxfoil.SaveNamesDistinct | pyxfoil.py:324-352 | the geometry, surface-pressure and polar file names of one airfoil are pairwise different |
| Pyxfoil.GeomNameIdentifiesAirfoil | pyxfoil.py:324-327 | two objects save their geometry to the same file exactly when their airfoil names agree |
| Pyxfoil.SurfCpNamesAgree | pyxfoil.py:329-335 | two angles share a surface-pressure file exactly when their one-decimal forms agree |
| Pyxfoil.PolarNameFromEnds | pyxfoil.py:342-352 | several angles are named `a<first>-<last>`, each with one decimal, from the first and the last only, with no sorting; a lone angle, scalar or list, is named `a<angle>` with two decimals |
| Pyxfoil.InitLinesLoadLast | pyxfoil.py:177-186 | construction leaves one geometry-load command, last; when headless, it follows the whole graphics block, four lines in all |
| Pyxfoil.ParentDirAtLastSep | pyxfoil.py:73-81 | the parent directory of a path is the path up to and including its last `/` |
| Pyxfoil.StemBeforeDot | pyxfoil.py:95-97 | a dot-free text that a `.` follows at the start of a file name is that name's text before its first `.` |
| Pyxfoil.FileAirfoilName | pyxfoil.py:163-173 | a geometry file `dir/stem.ext`, with no `.`, `/` or newline in the stem and no `/` in the extension, gives the airfoil name `stem`, whatever the directory holds |
| Pyxfoil.S1223Name | pyxfoil.py:163-173 | the geometry file `Data/s1223.dat` gives the airfoil name `s1223` |
| Sessions.GetPolar | pyxfoil.py:411-440 | succeeds exactly when the geometry check passes and the angle list is non-empty, and otherwise fails with the first error; the buffer is the construction lines, the optional `pane`, the geometry save, Polar's lines and the quit lines |
| Sessions.RunMain | pyxfoil.py:445-461 | succeeds exactly when the geometry check passes and the angle list is non-empty; the buffer is construction, geometry save, oper block, the first angle's block, Polar's lines and the quit lines |
| Sessions.OperLinesOperOnce | pyxfoil.py:247-252 | the oper block holds `oper` exactly once |
| Sessions.PolarLinesOperOnce | pyxfoil.py:279-302 | Polar's lines hold `oper` exactly once |
| Sessions.NoOperOutsideMenus | pyxfoil.py:454-459 | construction, geometry save, SingleAlfa and Quit never emit `oper` |
| Sessions.MainEntersOperTwice | pyxfoil.py:454-459 | main's script enters the oper menu exactly twice |
| Sessions.GetPolarEntersOperOnce | pyxfoil.py:426-436 | GetPolar's script enters the oper menu exactly once |
| Sessions.InitLoadsAtLineThree | pyxfoil.py:177-186 | the headless construction lines are four, and only line 3 loads a geometry |
| Sessions.MenuLinesLoadNothing | pyxfoil.py:242-263 | no line of the oper block or of a SingleAlfa block starts with `naca ` or `load ` |
| Sessions.OtherLinesLoadNothing | pyxfoil.py:429-436 | no line of `pane`, the geometry save or the quit lines starts with `naca ` or `load ` |
| Sessions.SweepLinesLoadNothing | pyxfoil.py:296-298 | no sweep line starts with `naca ` or `load ` |
| Sessions.PolarLinesLoadNothing | pyxfoil.py:265-302 | no line of Polar's lines starts with `naca ` or `load ` |
| Sessions.LoadsAtLineThreeAppend | pyxfoil.py:188-192 | appending lines that load nothing keeps line 3 as the only load |
| Sessions.GetPolarLoadsOnce | pyxfoil.py:426-436 | line k of GetPolar's script starts with `naca ` or `load ` exactly when k is 3 |
| Sessions.MainLoadsOnce | pyxfoil.py:452-459 | line k of main's script starts with `naca ` or `load ` exactly when k is 3 |
| Sessions.Naca0012Names | pyxfoil.py:324-352 | for NACA 0012 at Re 0, the geometry, polar and surface-pressure files lie under `Data/naca0012/` with the expected names |
| Sessions.Naca0012PolarLines | pyxfoil.py:265-302 | Polar([0, 10]) for NACA 0012 at Re 0 and 100 iterations gives exactly `oper`, `iter 100`, `pacc`, name, blank, `alfa 0`, `cpwr`, `alfa 10`, `cpwr`, `pacc` |
| Sessions.Naca0012Polar | pyxfoil.py:411-436 | the whole GetPolar script for NACA 0012, when no geometry has been saved yet |

## Left out

- `RunXfoil` (pyxfoil.py:194-212): spawning XFOIL and piping the script is I/O. The model ends at the finished buffer, and the `quiet` flag has no effect in it.
- Finding the XFOIL executable and the X11 check in `__init__` (pyxfoil.py:130-153), and `IsItWindows`: these probe the platform and filesystem. The executable is assumed present.
- `ErrorMessage` (pyxfoil.py:105-112): the text of the abort messages. Failures are values, not text.
- Directory creation: `disk` holds files only. `MakeOutputDir` is modelled as the list of prefixes it passes to `os.mkdir`. Its swallowed exceptions and effects are not modelled, so `Create` does not call it.
- `ReadXfoil*` readers and `WriteXfoilFile` (pyxfoil.py:360-405): these parse and write files through pandas and numpy, outside the script builder.
- Floating-point text conversion: `str()` of a float and the `{:1.2e}`, `{:1.1f}` and `{:1.2f}` specs are caller-supplied functions of the numeric value. Rounding, NaN and precision are not modelled. An int reaches them as its exact value.
- `FindBetween` beyond its use at pyxfoil.py:170. Its other branch is not modelled, and neither are general regular expressions. `parent` is matched literally, so a parent directory holding regex metacharacters is not modelled.
- Path normalisation: file-existence checks compare paths as strings.
- Aliasing of the list stored in `self.alfs`: the model stores a value, so a later mutation of the caller's list is not reflected.
- `Iter` as a float is not modelled: `Iter` is an integer here, though Python would accept a float and write, for example, `iter 100.0`.
- A scalar angle list in `main` is not modelled: `alfs[0]` on a number raises TypeError. `foil` is always a string.
- Default arguments are passed explicitly at each call: `Xfoil` with `Iter=100` and `headless=True`, `SaveGeom` with `overwrite=True`, `SingleAlfa` and `Polar` with `SaveCP=True`, `main` with `Iter=30`, and `GetPolar`'s defaults (`foil='0012'`, `naca=True`, `alfs=[0]`, `Re=0`, `SaveCP=True`, `Iter=100`, `pane=False`, `overwrite=True`). The model takes each as a parameter.
- `print('done')` at the end of `main`, and its call of `RunXfoil`.
- Pyxfoil.Xfoil.AddInput: states the buffer as a list of lines. The text `self.input` is `Script()`, and its growth by `cmd + "\n"` is stated by `Lines.FlattenSnoc`, not in AddInput's own ensures.
- Pyxfoil.Xfoil.SingleAlfaEach: the `for alf in alfs` loop of `Polar` is its own method. `Polar`'s contract covers the loop's effect.
