/**
 * The two drivers of pyxfoil.py that compose the builder methods into one
 * XFOIL session: GetPolar (pyxfoil.py:411-440) and main (pyxfoil.py:445-463).
 * Running XFOIL on the finished buffer is not part of this model.
 */
module Sessions {
  import opened Wrappers
  import opened Numbers
  import opened Pyxfoil

  /** The buffer GetPolar builds on an object `x`: construction (headless),
      optional pane, SaveGeom(), Polar, Quit. */
  function GetPolarScript(x: Xfoil, xs: seq<Num>, saveCP: bool, pane: bool, d: map<string, string>): seq<string>
    requires xs != []
  {
    InitLines(x.foil, x.naca, true) + (if pane then ["pane"] else []) + x.SaveGeomLines(true, d)
      + x.PolarLines(xs, saveCP) + QuitLines
  }

  /** GetPolar (pyxfoil.py:411-440), up to the finished buffer. */
  method GetPolar(foil: string, naca: bool, alfs: Alphas, Re: Num, saveCP: bool, Iter: int,
                  pane: bool, overwrite: bool, fmt: Formats, disk: map<string, string>)
    returns (r: Result<Xfoil, Failure>)
    ensures r.Success? <==> GeometryCheck(foil, naca, disk).Pass? && alfs.AsList() != []
    ensures r.Failure? ==> r.error == if GeometryCheck(foil, naca, disk).Fail?
                                      then GeometryCheck(foil, naca, disk).error else NoAngles
    ensures r.Success? ==> fresh(r.value)
    ensures r.Success? ==> r.value.foil == foil && r.value.naca == naca && r.value.Re == Re
    ensures r.Success? ==> r.value.Iter == Iter && r.value.fmt == fmt
    ensures r.Success? ==> r.value.input == GetPolarScript(r.value, alfs.AsList(), saveCP, pane, disk)
    ensures r.Success? ==> r.value.alfs == Some(alfs.AsList())
    ensures r.Success? ==> r.value.disk == RemovedIfOverwrite(r.value.SaveNamePolar(alfs).value, overwrite, disk)
  {
    var created := Xfoil.Create(foil, naca, Re, Iter, true, fmt, disk);
    if created.Failure? {
      return Failure(created.error);
    }
    var obj := created.value;
    ghost var init := obj.input;
    if pane {
      obj.AddInput("pane");
    }
    ghost var panes: seq<string> := if pane then ["pane"] else [];
    assert obj.input == init + panes;
    obj.SaveGeom(true);
    ghost var saved := obj.input;
    var polar := obj.Polar(alfs, saveCP, overwrite);
    if polar.Fail? {
      return Failure(polar.error);
    }
    ghost var swept := obj.input;
    assert swept == saved + obj.PolarLines(alfs.AsList(), saveCP);
    obj.Quit();
    assert obj.input == init + panes + obj.SaveGeomLines(true, disk) + obj.PolarLines(alfs.AsList(), saveCP) + QuitLines;
    r := Success(obj);
  }

  /** The buffer main builds on an object `x`: construction (headless),
      SaveGeom(), EnterOperMenu(), SingleAlfa(alfs[0]), Polar(alfs), Quit(). */
  function MainScript(x: Xfoil, xs: seq<Num>, d: map<string, string>): seq<string>
    requires xs != []
  {
    InitLines(x.foil, x.naca, true) + x.SaveGeomLines(true, d) + x.OperLines()
      + x.AlfaLines(xs[0], true) + x.PolarLines(xs, true) + QuitLines
  }

  /** main (pyxfoil.py:445-463), up to the finished buffer. */
  method RunMain(foil: string, naca: bool, alfs: seq<Num>, Re: Num, Iter: int,
                 fmt: Formats, disk: map<string, string>)
    returns (r: Result<Xfoil, Failure>)
    ensures r.Success? <==> GeometryCheck(foil, naca, disk).Pass? && alfs != []
    ensures r.Failure? ==> r.error == if GeometryCheck(foil, naca, disk).Fail?
                                      then GeometryCheck(foil, naca, disk).error else NoAngles
    ensures r.Success? ==> fresh(r.value)
    ensures r.Success? ==> r.value.foil == foil && r.value.naca == naca && r.value.Re == Re
    ensures r.Success? ==> r.value.Iter == Iter && r.value.fmt == fmt
    ensures r.Success? ==> r.value.input == MainScript(r.value, alfs, disk)
    ensures r.Success? ==> r.value.alfs == Some(alfs)
    ensures r.Success? ==> r.value.disk == RemovedIfOverwrite(r.value.SaveNamePolar(Many(alfs)).value, true, disk)
  {
    var created := Xfoil.Create(foil, naca, Re, Iter, true, fmt, disk);
    if created.Failure? {
      return Failure(created.error);
    }
    var obj := created.value;
    ghost var init := obj.input;
    obj.SaveGeom(true);
    obj.EnterOperMenu();
    if alfs == [] {
      return Failure(NoAngles);
    }
    obj.SingleAlfa(alfs[0], true);
    ghost var single := obj.input;
    assert single == init + obj.SaveGeomLines(true, disk) + obj.OperLines() + obj.AlfaLines(alfs[0], true);
    var polar := obj.Polar(Many(alfs), true, true);
    assert polar.Pass?;
    assert obj.input == single + obj.PolarLines(alfs, true);
    obj.Quit();
    r := Success(obj);
  }

  /** The oper block holds the one "oper" line it starts with. */
  lemma OperLinesOperOnce(x: Xfoil)
    ensures multiset(x.OperLines())["oper"] == 1
  {
  }

  /** Polar enters the oper menu exactly once. */
  lemma PolarLinesOperOnce(x: Xfoil, xs: seq<Num>, saveCP: bool)
    requires xs != []
    ensures multiset(x.PolarLines(xs, saveCP))["oper"] == 1
  {
    OperLinesOperOnce(x);
    SweepLinesExclude(x, xs, saveCP, "oper");
    var name := x.SaveNamePolar(Many(xs)).value;
    NotLine(x.savepath, "/" + x.name + "_polar_Re", "oper");
    assert multiset(["pacc", name, ""])["oper"] == 0;
    assert x.PolarLines(xs, saveCP) == x.OperLines() + ["pacc", name, ""] + x.SweepLines(xs, saveCP) + ["pacc"];
  }

  /** Construction, SaveGeom, SingleAlfa and Quit never enter the oper menu. */
  lemma NoOperOutsideMenus(x: Xfoil, alf: Num, saveCP: bool, d: map<string, string>)
    ensures "oper" !in InitLines(x.foil, x.naca, true)
    ensures "oper" !in x.SaveGeomLines(true, d)
    ensures "oper" !in x.AlfaLines(alf, saveCP)
    ensures "oper" !in QuitLines
  {
  }

  /** main enters the oper menu twice (pyxfoil.py:456-458): once itself, and
      again inside Polar, which always calls EnterOperMenu. */
  lemma MainEntersOperTwice(x: Xfoil, xs: seq<Num>, d: map<string, string>)
    requires xs != []
    ensures multiset(MainScript(x, xs, d))["oper"] == 2
  {
    NoOperOutsideMenus(x, xs[0], true, d);
    OperLinesOperOnce(x);
    PolarLinesOperOnce(x, xs, true);
  }

  /** GetPolar enters the oper menu once, through Polar. */
  lemma GetPolarEntersOperOnce(x: Xfoil, xs: seq<Num>, saveCP: bool, pane: bool, d: map<string, string>)
    requires xs != []
    ensures multiset(GetPolarScript(x, xs, saveCP, pane, d))["oper"] == 1
  {
    NoOperOutsideMenus(x, xs[0], saveCP, d);
    PolarLinesOperOnce(x, xs, saveCP);
  }

  /** A geometry-load command, as LoadGeom writes it (pyxfoil.py:217, 232). */
  predicate IsLoadCommand(line: string)
  {
    "naca " <= line || "load " <= line
  }

  /** No line of a block loads a geometry. */
  predicate LoadsNothing(lines: seq<string>)
  {
    forall k :: 0 <= k < |lines| ==> !IsLoadCommand(lines[k])
  }

  /** Line 3, and no other line, loads a geometry. */
  predicate LoadsAtLineThree(script: seq<string>)
  {
    forall k :: 0 <= k < |script| ==> (IsLoadCommand(script[k]) <==> k == 3)
  }

  lemma NotLoad(line: string)
    requires |line| > 0 && line[0] != 'n' && line[0] != 'l'
    ensures !IsLoadCommand(line)
  {
  }

  /** Appending lines that load nothing keeps the one load at line 3. */
  lemma LoadsAtLineThreeAppend(a: seq<string>, b: seq<string>)
    requires |a| > 3 && LoadsAtLineThree(a) && LoadsNothing(b)
    ensures LoadsAtLineThree(a + b)
  {
  }

  /** The headless construction lines load the geometry at line 3. */
  lemma InitLoadsAtLineThree(foil: string, naca: bool)
    ensures |InitLines(foil, naca, true)| == 4
    ensures LoadsAtLineThree(InitLines(foil, naca, true))
  {
  }

  /** The oper block and a SingleAlfa block load no geometry. */
  lemma MenuLinesLoadNothing(x: Xfoil, alf: Num, saveCP: bool)
    ensures LoadsNothing(x.OperLines())
    ensures LoadsNothing(x.AlfaLines(alf, saveCP))
  {
    NotLoad("visc " + Show(x.Re, x.fmt));
    NotLoad("iter " + DecimalString(x.Iter));
    NotLoad("alfa " + Show(alf, x.fmt));
    NotLoad("cpwr " + x.SaveNameSurfCp(alf));
  }

  /** A geometry save, the optional pane and the quit lines load no
      geometry. */
  lemma OtherLinesLoadNothing(x: Xfoil, pane: bool, d: map<string, string>)
    ensures LoadsNothing(if pane then ["pane"] else [])
    ensures LoadsNothing(x.SaveGeomLines(true, d))
    ensures LoadsNothing(QuitLines)
  {
    NotLoad("pane");
    NotLoad("save " + x.SaveNameGeom());
    NotLoad("quit");
  }

  /** Every sweep line is an alfa or cpwr command, so none loads a
      geometry. */
  lemma SweepLinesLoadNothing(x: Xfoil, xs: seq<Num>, saveCP: bool)
    ensures LoadsNothing(x.SweepLines(xs, saveCP))
  {
    var sweep := x.SweepLines(xs, saveCP);
    SweepLinesCommands(x, xs, saveCP);
    forall k | 0 <= k < |sweep| ensures !IsLoadCommand(sweep[k]) {
      NotLoad(sweep[k]);
    }
  }

  /** Polar's lines load no geometry: besides the oper block and the sweep,
      they are pacc, a blank and the polar file name, which starts with the
      `Data/` directory. */
  lemma PolarLinesLoadNothing(x: Xfoil, xs: seq<Num>, saveCP: bool)
    requires xs != []
    ensures LoadsNothing(x.PolarLines(xs, saveCP))
  {
    MenuLinesLoadNothing(x, xs[0], saveCP);
    SweepLinesLoadNothing(x, xs, saveCP);
    var name := x.SaveNamePolar(Many(xs)).value;
    assert name[0] == x.savepath[0] == 'D';
    NotLoad(name);
    NotLoad("pacc");
    var oper := x.OperLines();
    var sweep := x.SweepLines(xs, saveCP);
    var lines := x.PolarLines(xs, saveCP);
    assert lines == oper + ["pacc", name, ""] + sweep + ["pacc"];
    forall k | 0 <= k < |lines| ensures !IsLoadCommand(lines[k]) {
      if k < |oper| {
        assert lines[k] == oper[k];
      } else if |oper| + 3 <= k < |lines| - 1 {
        assert lines[k] == sweep[k - |oper| - 3];
      }
    }
  }

  /** GetPolar loads its geometry once, at line 3, after the graphics block
      (pyxfoil.py:426, 177-186). */
  lemma GetPolarLoadsOnce(x: Xfoil, xs: seq<Num>, saveCP: bool, pane: bool, d: map<string, string>)
    requires xs != []
    ensures LoadsAtLineThree(GetPolarScript(x, xs, saveCP, pane, d))
  {
    var init := InitLines(x.foil, x.naca, true);
    var panes: seq<string> := if pane then ["pane"] else [];
    InitLoadsAtLineThree(x.foil, x.naca);
    OtherLinesLoadNothing(x, pane, d);
    PolarLinesLoadNothing(x, xs, saveCP);
    LoadsAtLineThreeAppend(init, panes);
    LoadsAtLineThreeAppend(init + panes, x.SaveGeomLines(true, d));
    LoadsAtLineThreeAppend(init + panes + x.SaveGeomLines(true, d), x.PolarLines(xs, saveCP));
    LoadsAtLineThreeAppend(init + panes + x.SaveGeomLines(true, d) + x.PolarLines(xs, saveCP), QuitLines);
  }

  /** main loads its geometry once, at line 3 (pyxfoil.py:452). */
  lemma MainLoadsOnce(x: Xfoil, xs: seq<Num>, d: map<string, string>)
    requires xs != []
    ensures LoadsAtLineThree(MainScript(x, xs, d))
  {
    var init := InitLines(x.foil, x.naca, true);
    var save := x.SaveGeomLines(true, d);
    InitLoadsAtLineThree(x.foil, x.naca);
    OtherLinesLoadNothing(x, false, d);
    MenuLinesLoadNothing(x, xs[0], true);
    PolarLinesLoadNothing(x, xs, true);
    LoadsAtLineThreeAppend(init, save);
    LoadsAtLineThreeAppend(init + save, x.OperLines());
    LoadsAtLineThreeAppend(init + save + x.OperLines(), x.AlfaLines(xs[0], true));
    LoadsAtLineThreeAppend(init + save + x.OperLines() + x.AlfaLines(xs[0], true), x.PolarLines(xs, true));
    LoadsAtLineThreeAppend(init + save + x.OperLines() + x.AlfaLines(xs[0], true) + x.PolarLines(xs, true),
                           QuitLines);
  }

  /** The file names of the NACA 0012 object: everything under
      Data/naca0012/, each name starting with naca0012. */
  lemma Naca0012Names(x: Xfoil)
    requires x.foil == "0012" && x.naca && x.Re == Int(0)
    ensures var stem := "Data/naca0012/naca0012"; var e := x.fmt.exp2(0.0);
      && x.SaveNameGeom() == "Data/naca0012/naca0012.dat"
      && x.SaveNamePolar(Many([Int(0), Int(10)])).value
         == stem + "_polar_Re" + e + "a" + x.fmt.fixed1(0.0) + "-" + x.fmt.fixed1(10.0) + ".dat"
      && x.SaveNameSurfCp(Int(0)) == stem + "_surfCP_Re" + e + "a" + x.fmt.fixed1(0.0) + ".dat"
      && x.SaveNameSurfCp(Int(10)) == stem + "_surfCP_Re" + e + "a" + x.fmt.fixed1(10.0) + ".dat"
  {
    assert x.name == "naca0012";
    assert x.savepath + "/" + x.name == "Data/naca0012/naca0012";
  }

  /** Polar([0, 10], saveCP=True) on the NACA 0012 object at Re = 0 and
      Iter = 100: an inviscid oper block, then the sweep. */
  lemma Naca0012PolarLines(x: Xfoil)
    requires x.foil == "0012" && x.naca && x.Re == Int(0) && x.Iter == 100
    ensures var stem := "Data/naca0012/naca0012"; var e := x.fmt.exp2(0.0);
      x.PolarLines([Int(0), Int(10)], true) ==
      [ "oper", "iter 100",
        "pacc",
        stem + "_polar_Re" + e + "a" + x.fmt.fixed1(0.0) + "-" + x.fmt.fixed1(10.0) + ".dat",
        "",
        "alfa 0", "cpwr " + (stem + "_surfCP_Re" + e + "a" + x.fmt.fixed1(0.0) + ".dat"),
        "alfa 10", "cpwr " + (stem + "_surfCP_Re" + e + "a" + x.fmt.fixed1(10.0) + ".dat"),
        "pacc" ]
  {
    Naca0012Names(x);
    assert Digits(1) == "1" && Digits(10) == "10" && Digits(100) == "100";
    var xs := [Int(0), Int(10)];
    assert xs[1..] == [Int(10)] && xs[1..][1..] == [];
    assert "iter " + DecimalString(x.Iter) == "iter 100";
    assert x.OperLines() == ["oper"] + [] + ["iter " + DecimalString(x.Iter)];
    assert x.SweepLines(xs, true) == x.AlfaLines(Int(0), true) + x.AlfaLines(Int(10), true);
    assert "alfa " + DecimalString(0) == "alfa 0" && "alfa " + DecimalString(10) == "alfa 10";
  }

  /** GetPolar('0012', naca=True, alfs=[0, 10], Re=0, Iter=100) with no saved
      geometry yet: the whole script, line by line. */
  lemma Naca0012Polar(x: Xfoil, d: map<string, string>)
    requires x.foil == "0012" && x.naca && x.Re == Int(0) && x.Iter == 100
    requires "Data/naca0012/naca0012.dat" !in d
    ensures GetPolarScript(x, [Int(0), Int(10)], true, false, d) ==
      [ "plop", "g f", "", "naca 0012", "save Data/naca0012/naca0012.dat" ]
      + x.PolarLines([Int(0), Int(10)], true)
      + [ "", "", "", "", "quit" ]
  {
    Naca0012Names(x);
    assert "save " + "Data/naca0012/naca0012.dat" == "save Data/naca0012/naca0012.dat";
    assert x.SaveGeomLines(true, d) == ["save Data/naca0012/naca0012.dat"];
    assert "naca " + "0012" == "naca 0012";
    assert InitLines(x.foil, x.naca, true) == ["plop", "g f", "", "naca 0012"];
  }
}
