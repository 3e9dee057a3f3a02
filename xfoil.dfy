/**
 * The XFOIL command-script builder of pyxfoil.py: class Xfoil.
 *
 * Every builder method appends newline-terminated command lines to one
 * buffer, `input`, held here as the list of lines (`Script()` is the flat
 * text). Files on disk are a map from path to text contents, standing for
 * os.path.isfile, reading the geometry file and os.remove.
 */
module Pyxfoil {
  import opened Wrappers
  import opened Numbers
  import opened Paths
  import opened Lines

  /** Why a run stops early: sys.exit in LoadGeom, or the IndexError an empty
      list of angles raises in SaveNamePolar (or in main's alfs[0]). */
  datatype Failure = GeometryFileMissing(path: string) | GeometryFileEmpty(path: string) | NoAngles

  /** Angles of attack as Polar and SaveNamePolar accept them: a lone Python
      int or float, or a list. */
  datatype Alphas = Scalar(a: Num) | Many(xs: seq<Num>)
  {
    /** `if type(alfs) == float or type(alfs) == int: alfs = [alfs]` */
    function AsList(): seq<Num>
    {
      match this
      case Scalar(a) => [a]
      case Many(xs) => xs
    }
  }

  /** plop / g f / blank: enter the plotting options, turn graphics off, return. */
  const GraphicsLines: seq<string> := ["plop", "g f", ""]

  /** Four blank lines to back out of any menu, then quit. */
  const QuitLines: seq<string> := ["", "", "", "", "quit"]

  /** The airfoil name (pyxfoil.py:163-170): NACA digits prefixed with "naca",
      or the file name between the parent directory and the first '.'. */
  function AirfoilName(foil: string, naca: bool): (r: string)
    ensures naca ==> "naca" <= r
    ensures !naca ==> '.' !in r && '\n' !in r
  {
    if naca then "naca" + foil else FindBetweenDot(foil, ParentDir(foil))
  }

  /** The geometry-load command of LoadGeom. */
  function LoadLine(foil: string, naca: bool): string
  {
    if naca then "naca " + foil else "load " + foil
  }

  /** The checks LoadGeom makes before loading a geometry file
      (pyxfoil.py:221-229). */
  function GeometryCheck(foil: string, naca: bool, disk: map<string, string>): Outcome<Failure>
  {
    if naca then Pass
    else if foil !in disk then Fail(GeometryFileMissing(foil))
    else if CountLines(disk[foil]) < 2 then Fail(GeometryFileEmpty(foil))
    else Pass
  }

  /** A geometry file is accepted exactly when it exists and a line ends
      somewhere before its last character, i.e. it has at least two lines. */
  lemma GeometryAccepted(foil: string, naca: bool, disk: map<string, string>)
    ensures GeometryCheck(foil, naca, disk).Pass? <==>
      naca || (foil in disk && exists i :: 0 <= i < |disk[foil]| - 1 && EndsLineAt(disk[foil], i))
    ensures GeometryCheck(foil, naca, disk).Fail? ==>
      GeometryCheck(foil, naca, disk).error == (if foil in disk then GeometryFileEmpty(foil) else GeometryFileMissing(foil))
  {
    if !naca && foil in disk {
      FewerThanTwoLines(disk[foil]);
    }
  }

  /** The buffer right after construction (pyxfoil.py:177-186): the graphics
      block when headless, then the geometry load. */
  function InitLines(foil: string, naca: bool, headless: bool): seq<string>
  {
    (if headless then GraphicsLines else []) + [LoadLine(foil, naca)]
  }

  /** Number of lines that start with the command word `p`. */
  function CountPrefixed(lines: seq<string>, p: string): nat
  {
    if lines == [] then 0
    else (if p <= lines[0] then 1 else 0) + CountPrefixed(lines[1..], p)
  }

  lemma {:induction false} CountPrefixedAppend(a: seq<string>, b: seq<string>, p: string)
    ensures CountPrefixed(a + b, p) == CountPrefixed(a, p) + CountPrefixed(b, p)
    decreases |a|
  {
    if a == [] {
      assert a + b == b;
    } else {
      assert (a + b)[0] == a[0] && (a + b)[1..] == a[1..] + b;
      CountPrefixedAppend(a[1..], b, p);
    }
  }

  /** Regrouping the five parts of a buffer that Polar builds in turn. */
  lemma AppendAssoc<T>(a: seq<T>, b: seq<T>, c: seq<T>, d: seq<T>, e: seq<T>)
    ensures a + (b + c + d + e) == a + b + c + d + e
  {
  }

  /** `if os.path.isfile(path) and overwrite: os.remove(path)`: with
      overwrite the file is gone afterwards, and no other file is touched. */
  function RemovedIfOverwrite(path: string, overwrite: bool, d: map<string, string>): (r: map<string, string>)
    ensures r.Keys == if overwrite then d.Keys - {path} else d.Keys
    ensures forall f :: f in r ==> r[f] == d[f]
  {
    if path in d && overwrite then d - {path} else d
  }

  class Xfoil {
    // Run parameters, fixed at construction.
    const foil: string
    const naca: bool
    const Re: Num
    const Iter: int
    const fmt: Formats
    const name: string := AirfoilName(foil, naca)
    const savepath: string := "Data/" + name

    /** The command buffer, one entry per line. */
    var input: seq<string>
    /** The angles of the last Polar; absent until Polar is first called. */
    var alfs: Option<seq<Num>>
    /** Files on disk: path to text contents. */
    var disk: map<string, string>

    /** The text piped to XFOIL. */
    function Script(): string
      reads this
    {
      Flatten(input)
    }

    /** The field assignments and graphics block of `__init__`; the geometry
        load, which may abort, is in Create. */
    constructor Init(foil: string, naca: bool, Re: Num, Iter: int, headless: bool,
                     fmt: Formats, disk: map<string, string>)
      ensures this.foil == foil && this.naca == naca && this.Re == Re
      ensures this.Iter == Iter && this.fmt == fmt
      ensures input == (if headless then GraphicsLines else [])
      ensures alfs == None && this.disk == disk
    {
      this.foil := foil;
      this.naca := naca;
      this.Re := Re;
      this.Iter := Iter;
      this.fmt := fmt;
      input := [];
      alfs := None;
      this.disk := disk;
      new;
      if headless {
        TurnOffGraphics();
      }
    }

    /** `Xfoil(foil, naca, Re, Iter, headless=headless)` (pyxfoil.py:119-186):
        fails, with nothing built, when the geometry file is missing or has
        fewer than two lines; otherwise the buffer holds the graphics block
        (when headless) followed by exactly one load command. */
    static method Create(foil: string, naca: bool, Re: Num, Iter: int, headless: bool,
                         fmt: Formats, disk: map<string, string>) returns (r: Result<Xfoil, Failure>)
      ensures r.Success? <==> GeometryCheck(foil, naca, disk).Pass?
      ensures r.Failure? ==> r.error == GeometryCheck(foil, naca, disk).error
      ensures r.Success? ==> fresh(r.value)
      ensures r.Success? ==> r.value.foil == foil && r.value.naca == naca && r.value.Re == Re
      ensures r.Success? ==> r.value.Iter == Iter && r.value.fmt == fmt
      ensures r.Success? ==> r.value.input == InitLines(foil, naca, headless)
      ensures r.Success? ==> r.value.alfs == None && r.value.disk == disk
    {
      var x := new Xfoil.Init(foil, naca, Re, Iter, headless, fmt, disk);
      var loaded := x.LoadGeom();
      if loaded.Fail? {
        return Failure(loaded.error);
      }
      r := Success(x);
    }

    /** AddInput (pyxfoil.py:188-192): one more line, nothing else changes;
        by FlattenSnoc the script text grows by `cmd + "\n"`. */
    method AddInput(cmd: string)
      modifies this`input
      ensures input == old(input) + [cmd]
    {
      input := input + [cmd];
    }

    /** LoadGeom (pyxfoil.py:214-232). */
    method LoadGeom() returns (outcome: Outcome<Failure>)
      modifies this`input
      ensures outcome == GeometryCheck(foil, naca, disk)
      ensures input == if outcome.Pass? then old(input) + [LoadLine(foil, naca)] else old(input)
    {
      if naca {
        AddInput("naca " + foil);
      } else {
        if foil !in disk {
          return Fail(GeometryFileMissing(foil));
        }
        if CountLines(disk[foil]) < 2 {
          return Fail(GeometryFileEmpty(foil));
        }
        AddInput("load " + foil);
      }
      outcome := Pass;
    }

    /** SaveNameGeom (pyxfoil.py:324-327). */
    function SaveNameGeom(): string
    {
      savepath + "/" + name + ".dat"
    }

    /** What SaveGeom adds when the files on disk are `d`. */
    function SaveGeomLines(overwrite: bool, d: map<string, string>): seq<string>
    {
      if SaveNameGeom() !in d && overwrite then ["save " + SaveNameGeom()] else []
    }

    /** SaveGeom (pyxfoil.py:234-240): a save command only when the file is
        absent and overwrite is set; the files on disk are only looked at. */
    method SaveGeom(overwrite: bool)
      modifies this`input
      ensures input == old(input) + SaveGeomLines(overwrite, disk)
    {
      var savename := SaveNameGeom();
      if savename !in disk && overwrite {
        AddInput("save " + savename);
      }
    }

    /** The lines of EnterOperMenu: oper, visc only for a viscous run, iter. */
    function OperLines(): seq<string>
    {
      ["oper"] + (if Re.Value() != 0.0 then ["visc " + Show(Re, fmt)] else []) + ["iter " + DecimalString(Iter)]
    }

    /** EnterOperMenu (pyxfoil.py:242-252). */
    method EnterOperMenu()
      modifies this`input
      ensures input == old(input) + OperLines()
    {
      AddInput("oper");
      if Re.Value() != 0.0 {
        AddInput("visc " + Show(Re, fmt));
      }
      AddInput("iter " + DecimalString(Iter));
    }

    /** SaveNameSurfCp (pyxfoil.py:329-335): always the single-angle form. */
    function SaveNameSurfCp(alf: Num): string
    {
      savepath + "/" + name + "_surfCP_Re" + fmt.exp2(Re.Value()) + "a" + fmt.fixed1(alf.Value()) + ".dat"
    }

    /** The lines of SingleAlfa. */
    function AlfaLines(alf: Num, saveCP: bool): seq<string>
    {
      ["alfa " + Show(alf, fmt)] + (if saveCP then ["cpwr " + SaveNameSurfCp(alf)] else [])
    }

    /** SingleAlfa (pyxfoil.py:254-263). */
    method SingleAlfa(alf: Num, saveCP: bool)
      modifies this`input
      ensures input == old(input) + AlfaLines(alf, saveCP)
    {
      AddInput("alfa " + Show(alf, fmt));
      if saveCP {
        var savename := SaveNameSurfCp(alf);
        AddInput("cpwr " + savename);
      }
    }

    /** SaveNamePolar (pyxfoil.py:337-352): two decimals for a single angle,
        first and last angle with one decimal otherwise (no sorting); an empty
        list raises IndexError, here None. */
    function SaveNamePolar(alfs: Alphas): (path: Option<string>)
      ensures path.Some? <==> alfs.AsList() != []
    {
      var xs := alfs.AsList();
      if xs == [] then None
      else
        var alfrange :=
          if |xs| == 1 then "a" + fmt.fixed2(xs[0].Value())
          else "a" + fmt.fixed1(xs[0].Value()) + "-" + fmt.fixed1(xs[|xs| - 1].Value());
        Some(savepath + "/" + name + "_polar_Re" + fmt.exp2(Re.Value()) + alfrange + ".dat")
    }

    /** One SingleAlfa block per angle, in the given order. */
    function SweepLines(xs: seq<Num>, saveCP: bool): seq<string>
    {
      if xs == [] then [] else AlfaLines(xs[0], saveCP) + SweepLines(xs[1..], saveCP)
    }

    lemma {:induction false} SweepLinesSnoc(xs: seq<Num>, x: Num, saveCP: bool)
      ensures SweepLines(xs + [x], saveCP) == SweepLines(xs, saveCP) + AlfaLines(x, saveCP)
      decreases |xs|
    {
      if xs == [] {
        assert SweepLines([x], saveCP) == AlfaLines(x, saveCP) + SweepLines([], saveCP);
      } else {
        assert (xs + [x])[0] == xs[0] && (xs + [x])[1..] == xs[1..] + [x];
        SweepLinesSnoc(xs[1..], x, saveCP);
      }
    }

    /** The lines of a successful Polar. */
    function PolarLines(xs: seq<Num>, saveCP: bool): seq<string>
      requires xs != []
    {
      OperLines() + ["pacc", SaveNamePolar(Many(xs)).value, ""] + SweepLines(xs, saveCP) + ["pacc"]
    }

    /** The loop of Polar (pyxfoil.py:297-298): SingleAlfa for each angle in
        turn. */
    method SingleAlfaEach(xs: seq<Num>, saveCP: bool)
      modifies this`input
      ensures input == old(input) + SweepLines(xs, saveCP)
    {
      for i := 0 to |xs|
        invariant input == old(input) + SweepLines(xs[..i], saveCP)
      {
        assert xs[..i + 1] == xs[..i] + [xs[i]];
        SweepLinesSnoc(xs[..i], xs[i], saveCP);
        SingleAlfa(xs[i], saveCP);
        assert old(input) + (SweepLines(xs[..i], saveCP) + AlfaLines(xs[i], saveCP))
            == old(input) + SweepLines(xs[..i], saveCP) + AlfaLines(xs[i], saveCP);
      }
      assert xs[..|xs|] == xs;
    }

    /** Polar (pyxfoil.py:265-302). The angles are stored and the oper menu
        entered first; an empty list then fails in SaveNamePolar. */
    method Polar(alfsIn: Alphas, saveCP: bool, overwrite: bool) returns (outcome: Outcome<Failure>)
      modifies this`input, this`alfs, this`disk
      ensures alfs == Some(alfsIn.AsList())
      ensures outcome.Pass? <==> alfsIn.AsList() != []
      ensures outcome.Fail? ==> outcome.error == NoAngles
      ensures outcome.Fail? ==> input == old(input) + OperLines() && disk == old(disk)
      ensures outcome.Pass? ==> input == old(input) + PolarLines(alfsIn.AsList(), saveCP)
      ensures outcome.Pass? ==> disk == RemovedIfOverwrite(SaveNamePolar(alfsIn).value, overwrite, old(disk))
    {
      var xs := alfsIn.AsList();
      alfs := Some(xs);
      EnterOperMenu();
      ghost var menu := input;
      var savename := SaveNamePolar(Many(xs));
      if savename.None? {
        return Fail(NoAngles);
      }
      if savename.value in disk && overwrite {
        disk := disk - {savename.value};
      }
      assert disk == RemovedIfOverwrite(savename.value, overwrite, old(disk));
      AddInput("pacc");
      AddInput(savename.value);
      AddInput("");
      ghost var header := input;
      assert header == menu + ["pacc", savename.value, ""];
      SingleAlfaEach(xs, saveCP);
      AddInput("pacc");
      AppendAssoc(old(input), OperLines(), ["pacc", savename.value, ""], SweepLines(xs, saveCP), ["pacc"]);
      outcome := Pass;
    }

    /** Quit (pyxfoil.py:304-311). */
    method Quit()
      modifies this`input
      ensures input == old(input) + QuitLines
    {
      AddInput("");
      AddInput("");
      AddInput("");
      AddInput("");
      AddInput("quit");
    }

    /** TurnOffGraphics (pyxfoil.py:313-322). */
    method TurnOffGraphics()
      modifies this`input
      ensures input == old(input) + GraphicsLines
    {
      AddInput("plop");
      AddInput("g f");
      AddInput("");
    }
  }

  /** A line that starts differently from `line` is not `line`. */
  lemma NotLine(p: string, rest: string, line: string)
    requires |p| > 0 && |line| > 0 && p[0] != line[0]
    ensures p + rest != line
  {
  }

  /** EnterOperMenu (pyxfoil.py:242-252) appends oper first and iter last,
      with one visc command in between exactly when the run is viscous:
      three lines for a viscous run, two for an inviscid one. */
  lemma OperLinesViscous(x: Xfoil)
    ensures |x.OperLines()| == if x.Re.Value() != 0.0 then 3 else 2
    ensures x.OperLines()[0] == "oper"
    ensures x.OperLines()[|x.OperLines()| - 1] == "iter " + DecimalString(x.Iter)
    ensures CountPrefixed(x.OperLines(), "visc ") == if x.Re.Value() != 0.0 then 1 else 0
  {
    var iter := "iter " + DecimalString(x.Iter);
    assert !("visc " <= iter) by {
      assert iter[0] == 'i';
    }
    if x.Re.Value() != 0.0 {
      var visc := "visc " + Show(x.Re, x.fmt);
      assert "visc " <= visc;
      assert x.OperLines() == ["oper", visc, iter];
      assert x.OperLines()[1..] == [visc, iter];
      assert [visc, iter][1..] == [iter];
      assert CountPrefixed([iter], "visc ") == 0;
    } else {
      assert x.OperLines() == ["oper", iter];
      assert x.OperLines()[1..] == [iter];
      assert CountPrefixed([iter], "visc ") == 0;
    }
  }

  /** The sweep of Polar (pyxfoil.py:296-298) with surface pressures saved:
      one SingleAlfa block per angle, in the order given; angle i gives line
      2i (alfa) and line 2i+1 (cpwr with the single-angle file name). */
  lemma {:induction false} SweepLinesPaired(x: Xfoil, xs: seq<Num>)
    ensures |x.SweepLines(xs, true)| == 2 * |xs|
    ensures forall i :: 0 <= i < |xs| ==>
      x.SweepLines(xs, true)[2 * i] == "alfa " + Show(xs[i], x.fmt) &&
      x.SweepLines(xs, true)[2 * i + 1] == "cpwr " + x.SaveNameSurfCp(xs[i])
    decreases |xs|
  {
    if xs != [] {
      var tail := x.SweepLines(xs[1..], true);
      SweepLinesPaired(x, xs[1..]);
      var all := x.SweepLines(xs, true);
      assert all == x.AlfaLines(xs[0], true) + tail;
      forall i | 0 < i < |xs|
        ensures all[2 * i] == "alfa " + Show(xs[i], x.fmt)
        ensures all[2 * i + 1] == "cpwr " + x.SaveNameSurfCp(xs[i])
      {
        assert all[2 * i] == tail[2 * (i - 1)];
        assert all[2 * i + 1] == tail[2 * (i - 1) + 1];
      }
    }
  }

  /** Without surface pressures, line i of the sweep is the alfa command of
      angle i, and nothing else is emitted. */
  lemma {:induction false} SweepLinesAlfaOnly(x: Xfoil, xs: seq<Num>)
    ensures |x.SweepLines(xs, false)| == |xs|
    ensures forall i :: 0 <= i < |xs| ==> x.SweepLines(xs, false)[i] == "alfa " + Show(xs[i], x.fmt)
    decreases |xs|
  {
    if xs != [] {
      var tail := x.SweepLines(xs[1..], false);
      SweepLinesAlfaOnly(x, xs[1..]);
      var all := x.SweepLines(xs, false);
      assert all == x.AlfaLines(xs[0], false) + tail;
      forall i | 0 < i < |xs|
        ensures all[i] == "alfa " + Show(xs[i], x.fmt)
      {
        assert all[i] == tail[i - 1];
      }
    }
  }

  /** Every line of the sweep is an alfa or a cpwr command. */
  lemma {:induction false} SweepLinesCommands(x: Xfoil, xs: seq<Num>, saveCP: bool)
    ensures forall k :: 0 <= k < |x.SweepLines(xs, saveCP)| ==>
      "alfa " <= x.SweepLines(xs, saveCP)[k] || "cpwr " <= x.SweepLines(xs, saveCP)[k]
    decreases |xs|
  {
    if xs != [] {
      var head := x.AlfaLines(xs[0], saveCP);
      var tail := x.SweepLines(xs[1..], saveCP);
      SweepLinesCommands(x, xs[1..], saveCP);
      var all := x.SweepLines(xs, saveCP);
      assert all == head + tail;
      forall k | 0 <= k < |all|
        ensures "alfa " <= all[k] || "cpwr " <= all[k]
      {
        if k >= |head| {
          assert all[k] == tail[k - |head|];
        }
      }
    }
  }

  /** A command starting with neither 'a' nor 'c' is never part of the
      sweep. */
  lemma SweepLinesExclude(x: Xfoil, xs: seq<Num>, saveCP: bool, line: string)
    requires |line| > 0 && line[0] != 'a' && line[0] != 'c'
    ensures line !in x.SweepLines(xs, saveCP)
  {
  }

  /** The header Polar writes after the oper block turns accumulation on
      with its one pacc; the oper block and the file name hold none. */
  lemma PolarHeaderTogglesOnce(x: Xfoil, xs: seq<Num>)
    requires xs != []
    ensures multiset(x.OperLines() + ["pacc", x.SaveNamePolar(Many(xs)).value, ""])["pacc"] == 1
  {
  }

  /** The one toggle token pacc opens and closes accumulation, and appears
      nowhere else in Polar's lines. */
  lemma PolarLinesToggleTwice(x: Xfoil, xs: seq<Num>, saveCP: bool)
    requires xs != []
    ensures multiset(x.PolarLines(xs, saveCP))["pacc"] == 2
  {
    var header := x.OperLines() + ["pacc", x.SaveNamePolar(Many(xs)).value, ""];
    PolarHeaderTogglesOnce(x, xs);
    SweepLinesExclude(x, xs, saveCP, "pacc");
    assert multiset(header + x.SweepLines(xs, saveCP))["pacc"] == 1;
  }

  /** The geometry, surface-pressure and polar files of one airfoil never
      share a name: all three start with `savepath/name`, then differ. */
  lemma SaveNamesDistinct(x: Xfoil, alf: Num, alfs: Alphas)
    requires alfs.AsList() != []
    ensures x.SaveNameGeom() != x.SaveNameSurfCp(alf)
    ensures x.SaveNameGeom() != x.SaveNamePolar(alfs).value
    ensures x.SaveNameSurfCp(alf) != x.SaveNamePolar(alfs).value
  {
    var stem := x.savepath + "/" + x.name;
    var geom := x.SaveNameGeom();
    var surf := x.SaveNameSurfCp(alf);
    var polar := x.SaveNamePolar(alfs).value;
    var surfTail := "_surfCP_Re" + x.fmt.exp2(x.Re.Value()) + "a" + x.fmt.fixed1(alf.Value()) + ".dat";
    assert geom == stem + ".dat";
    assert surf == stem + surfTail;
    var xs := alfs.AsList();
    var alfrange :=
      if |xs| == 1 then "a" + x.fmt.fixed2(xs[0].Value())
      else "a" + x.fmt.fixed1(xs[0].Value()) + "-" + x.fmt.fixed1(xs[|xs| - 1].Value());
    var polarTail := "_polar_Re" + x.fmt.exp2(x.Re.Value()) + alfrange + ".dat";
    assert polar == stem + polarTail;
    assert geom[|stem|] == '.';
    assert surf[|stem|] == '_' && surf[|stem| + 1] == 's';
    assert polar[|stem|] == '_' && polar[|stem| + 1] == 'p';
  }

  /** The geometry file (pyxfoil.py:324-327) identifies the airfoil: two
      objects save their geometry to the same file exactly when their
      airfoil names agree. */
  lemma GeomNameIdentifiesAirfoil(x: Xfoil, y: Xfoil)
    ensures x.SaveNameGeom() == y.SaveNameGeom() <==> x.name == y.name
  {
    if x.SaveNameGeom() == y.SaveNameGeom() {
      var g := x.SaveNameGeom();
      assert g == "Data/" + x.name + "/" + x.name + ".dat";
      assert |g| == 2 * |x.name| + 10 == 2 * |y.name| + 10;
      assert g[5..5 + |x.name|] == x.name;
      assert y.SaveNameGeom()[5..5 + |y.name|] == y.name;
    }
  }

  /** Two angles share a surface-pressure file (pyxfoil.py:329-335) exactly
      when they agree to one decimal: the angle enters the name only through
      `{:1.1f}`. */
  lemma SurfCpNamesAgree(x: Xfoil, a: Num, b: Num)
    ensures x.SaveNameSurfCp(a) == x.SaveNameSurfCp(b) <==> x.fmt.fixed1(a.Value()) == x.fmt.fixed1(b.Value())
  {
    var head := x.savepath + "/" + x.name + "_surfCP_Re" + x.fmt.exp2(x.Re.Value()) + "a";
    var fa := x.fmt.fixed1(a.Value());
    var fb := x.fmt.fixed1(b.Value());
    if x.SaveNameSurfCp(a) == x.SaveNameSurfCp(b) {
      var n := x.SaveNameSurfCp(a);
      assert n == head + fa + ".dat" == head + fb + ".dat";
      assert |fa| == |fb|;
      assert n[|head|..|head| + |fa|] == fa;
      assert x.SaveNameSurfCp(b)[|head|..|head| + |fb|] == fb;
    }
  }

  /** The polar file name of a list of several angles depends only on the
      first and the last (no sorting); a lone angle, scalar or one-element
      list, uses the two-decimal form. */
  lemma PolarNameFromEnds(x: Xfoil, xs: seq<Num>, ys: seq<Num>, a: Num)
    requires |xs| >= 2 && |ys| >= 2
    requires xs[0] == ys[0] && xs[|xs| - 1] == ys[|ys| - 1]
    ensures x.SaveNamePolar(Many(xs)) == x.SaveNamePolar(Many(ys))
      == Some(x.savepath + "/" + x.name + "_polar_Re" + x.fmt.exp2(x.Re.Value())
              + "a" + x.fmt.fixed1(xs[0].Value()) + "-" + x.fmt.fixed1(xs[|xs| - 1].Value()) + ".dat")
    ensures x.SaveNamePolar(Scalar(a)) == x.SaveNamePolar(Many([a]))
      == Some(x.savepath + "/" + x.name + "_polar_Re" + x.fmt.exp2(x.Re.Value()) + "a" + x.fmt.fixed2(a.Value()) + ".dat")
  {
    var head := x.savepath + "/" + x.name + "_polar_Re" + x.fmt.exp2(x.Re.Value());
    assert head + ("a" + x.fmt.fixed2(a.Value())) + ".dat" == head + "a" + x.fmt.fixed2(a.Value()) + ".dat";
    var lo := x.fmt.fixed1(xs[0].Value());
    var hi := x.fmt.fixed1(xs[|xs| - 1].Value());
    assert head + ("a" + lo + "-" + hi) + ".dat" == head + "a" + lo + "-" + hi + ".dat";
  }

  /** Construction leaves exactly one geometry-load command, last, after
      the complete graphics block when headless (pyxfoil.py:177-186). */
  lemma InitLinesLoadLast(foil: string, naca: bool, headless: bool)
    ensures var init := InitLines(foil, naca, headless);
      && init[|init| - 1] == LoadLine(foil, naca)
      && (headless ==> init[..3] == GraphicsLines && |init| == 4)
      && (!headless ==> |init| == 1)
      && CountPrefixed(init, "naca ") + CountPrefixed(init, "load ") == 1
  {
    var init := InitLines(foil, naca, headless);
    var load := LoadLine(foil, naca);
    assert "naca " <= load || "load " <= load;
    assert !("naca " <= load && "load " <= load) by {
      assert load[0] == (if naca then 'n' else 'l');
    }
    var single: seq<string> := [load];
    assert CountPrefixed(single, "naca ") + CountPrefixed(single, "load ") == 1 by {
      assert single[1..] == [];
    }
    if headless {
      assert init == GraphicsLines + single;
      var g := GraphicsLines;
      assert g[1..] == ["g f", ""] && g[1..][1..] == [""] && g[1..][1..][1..] == [];
      assert CountPrefixed(g, "naca ") == 0 && CountPrefixed(g, "load ") == 0;
      CountPrefixedAppend(g, single, "naca ");
      CountPrefixedAppend(g, single, "load ");
      assert init[1..] == ["g f", "", load];
      assert init[1..][1..] == ["", load];
      assert init[1..][1..][1..] == [load];
    } else {
      assert init == [load];
    }
  }

  /** A parent directory is everything up to and including the last '/'. */
  lemma ParentDirAtLastSep(path: string, i: nat)
    requires i < |path| && path[i] == Sep
    requires forall k :: i < k < |path| ==> path[k] != Sep
    ensures ParentDir(path) == path[..i + 1]
  {
    var parent := ParentDir(path);
    ParentDirSplitsPath(path);
    assert forall k :: |parent| <= k < |path| ==> path[k] == path[|parent|..][k - |parent|];
    assert |parent| == i + 1 by {
      assert parent[|parent| - 1] == path[|parent| - 1];
    }
  }

  /** A dot-free prefix followed by a dot, in a text whose first dot is at d,
      is the text before d. */
  lemma StemBeforeDot(name: string, base: string, d: nat)
    requires name + "." <= base && '.' !in name
    requires d < |base| && base[d] == '.'
    requires forall k :: 0 <= k < d ==> base[k] != '.'
    ensures name == base[..d]
  {
    assert base[|name|] == '.';
    assert forall k :: 0 <= k < |name| ==> base[k] == name[k] != '.';
  }

  /** A geometry file `dir/stem.ext` names its airfoil `stem`, whatever the
      directory holds, as long as the stem has no '.'. */
  lemma FileAirfoilName(dir: string, stem: string, ext: string)
    requires Sep !in stem && Sep !in ext && '.' !in stem && '\n' !in stem
    ensures AirfoilName(dir + [Sep] + stem + "." + ext, false) == stem
  {
    var base := stem + "." + ext;
    var path := dir + [Sep] + base;
    assert path == dir + [Sep] + stem + "." + ext;
    assert forall k :: |dir| < k < |path| ==> path[k] == base[k - |dir| - 1];
    ParentDirAtLastSep(path, |dir|);
    assert path[|dir| + 1..] == base;
    assert DotReachable(path, |dir| + 1) by {
      assert path[|dir| + 1 + |stem|] == '.';
      assert forall k :: |dir| + 1 <= k < |dir| + 1 + |stem| ==> path[k] == stem[k - |dir| - 1];
    }
    FileStem(path);
    assert base[|stem|] == '.';
    StemBeforeDot(AirfoilName(path, false), base, |stem|);
    assert base[..|stem|] == stem;
  }

  /** The geometry file of the example run (pyxfoil.py:467) names its
      airfoil s1223, saved under Data/s1223/. */
  lemma S1223Name(path: string)
    requires path == "Data/s1223.dat"
    ensures AirfoilName(path, false) == "s1223"
  {
    FileAirfoilName("Data", "s1223", "dat");
    assert "Data" + [Sep] + "s1223" + "." + "dat" == path;
  }
}
