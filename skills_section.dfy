/** The skills section (src/components/SkillsSection.tsx): the hexagon of six
    level bars, the 3D/flat switch of `Skills3D`, and the section's view state. */
module SkillsSection {
  import opened DeviceDetection

  /** Number of bars in the hexagon. */
  const BarCount: nat := 6
  /** Level worth one bar (six bars for 100%). */
  const BarUnit: real := 16.67

  /** Bar `i` is lit when `i < level / 16.67`. */
  predicate IsBarActive(i: nat, level: real)
  {
    (i as real) < level / BarUnit
  }

  /** The six bars of `AnimatedSkillIndicator`, lit or not. */
  function ActiveBars(level: real): (bars: seq<bool>)
    ensures |bars| == BarCount
    ensures forall i :: 0 <= i < BarCount ==> (bars[i] <==> IsBarActive(i, level))
  {
    seq(BarCount, i requires 0 <= i < BarCount => IsBarActive(i, level))
  }

  /** The least integer not below `x`. */
  function Ceiling(x: real): (c: int)
    ensures x <= c as real < x + 1.0
  {
    -((-x).Floor)
  }

  /** How many bars a level lights: its ceiling in bar units, clamped to 0..6. */
  function ActiveCount(level: real): (k: nat)
    ensures k <= BarCount
  {
    var c := Ceiling(level / BarUnit);
    if c <= 0 then 0 else if c >= BarCount then BarCount else c
  }

  /** The lit bars are exactly the first `ActiveCount(level)`: they always form
      a prefix of the hexagon. */
  lemma {:induction false} ActiveBarsArePrefix(level: real, i: nat)
    requires i < BarCount
    ensures ActiveBars(level)[i] <==> i < ActiveCount(level)
  {
    var x := level / BarUnit;
    var c := Ceiling(x);
    assert IsBarActive(i, level) <==> (i as real) < x;
    assert (i as real) < x <==> i < c;
  }

  /** A full level lights all six bars; the levels listed in `Skills3D` (95,
      90, 88, 85, 82 and 80) would light six, six, six, six, five and five. */
  lemma BarsForLevels()
    ensures ActiveCount(100.0) == 6
    ensures ActiveCount(95.0) == 6 && ActiveCount(90.0) == 6 && ActiveCount(88.0) == 6
    ensures ActiveCount(85.0) == 6 && ActiveCount(82.0) == 5 && ActiveCount(80.0) == 5
  {
    assert Ceiling(100.0 / BarUnit) == 6;
    assert Ceiling(95.0 / BarUnit) == 6;
    assert Ceiling(90.0 / BarUnit) == 6;
    assert Ceiling(88.0 / BarUnit) == 6;
    assert Ceiling(85.0 / BarUnit) == 6;
    assert Ceiling(82.0 / BarUnit) == 5;
    assert Ceiling(80.0 / BarUnit) == 5;
  }

  /** A higher level never lights fewer bars. */
  lemma {:induction false} ActiveCountMonotone(l1: real, l2: real)
    requires l1 <= l2
    ensures ActiveCount(l1) <= ActiveCount(l2)
  {
    assert l1 / BarUnit <= l2 / BarUnit;
  }

  /** What `Skills3D` draws. */
  datatype Skills3DRender = FlatFallback | SkillsCanvas(config: PerformanceConfig)

  /** `Skills3D`: the flat fallback when the selected tier disables 3D or the
      canvas has reported an error, the canvas otherwise. */
  function Skills3DView(d: DeviceInfo, webGLError: bool): (v: Skills3DRender)
    ensures v == FlatFallback <==> !d.supportsWebGL || webGLError
    ensures v.SkillsCanvas? ==> v.config.enable3D && v.config == GetPerformanceConfig(d)
  {
    var config := GetPerformanceConfig(d);
    if !config.enable3D || webGLError then FlatFallback else SkillsCanvas(config)
  }

  /** The error flag local to one mounted `Skills3D`: the canvas's error handler
      sets it and nothing clears it while that instance lives; leaving the 3D
      view unmounts it, and the next mount starts from a fresh state. */
  class Skills3DState {
    var webGLError: bool

    constructor ()
      ensures !webGLError
    {
      webGLError := false;
    }

    /** The canvas's `onError` handler. */
    method OnCanvasError()
      modifies this
      ensures webGLError
    {
      webGLError := true;
    }

    /** What the component draws for a given device. */
    function View(d: DeviceInfo): (v: Skills3DRender)
      reads this
      ensures webGLError ==> v == FlatFallback
    {
      Skills3DView(d, webGLError)
    }
  }

  /** What the section shows below its header. */
  datatype SectionPanel = SkillGrid | UnavailablePanel | Skills3DPanel

  /** The section's conditional render: the card grid when `view3D` is off,
      otherwise the "temporarily unavailable" panel on a section-level error or
      the `Skills3D` component. */
  function SectionPanelFor(view3D: bool, webGLError: bool): (p: SectionPanel)
    ensures p == SkillGrid <==> !view3D
    ensures p == UnavailablePanel <==> view3D && webGLError
  {
    if view3D then (if webGLError then UnavailablePanel else Skills3DPanel) else SkillGrid
  }

  /** The section's state. No handler of the section ever sets its own
      `webGLError`, which `Valid` records. */
  class SkillsSectionState {
    var view3D: bool
    var is3DLoading: bool
    var webGLError: bool

    ghost predicate Valid()
      reads this
    {
      !webGLError
    }

    function Panel(): SectionPanel
      reads this
    {
      SectionPanelFor(view3D, webGLError)
    }

    constructor ()
      ensures Valid()
      ensures view3D && !is3DLoading && !webGLError
    {
      view3D, is3DLoading, webGLError := true, false, false;
    }

    /** The "3D View" button. */
    method ClickView3D()
      requires Valid()
      modifies this
      ensures Valid()
      ensures view3D && !is3DLoading && webGLError == old(webGLError)
      ensures Panel() == Skills3DPanel
    {
      view3D := true;
      is3DLoading := false;
    }

    /** The "Grid View" button. */
    method ClickGridView()
      requires Valid()
      modifies this
      ensures Valid()
      ensures !view3D && !is3DLoading && webGLError == old(webGLError)
      ensures Panel() == SkillGrid
    {
      view3D := false;
      is3DLoading := false;
    }

    /** The button of the "temporarily unavailable" panel: it only turns the 3D
      view off. That panel needs the section's error flag, which no handler
      sets (`UnavailablePanelUnreachable`), so this handler is dead code in
      the page as written; it is modelled on the states the section reaches. */
    method ClickSwitchToGrid()
      requires Valid()
      modifies this
      ensures Valid()
      ensures !view3D && is3DLoading == old(is3DLoading) && webGLError == old(webGLError)
    {
      view3D := false;
    }
  }

  /** In every state the section can reach, the "temporarily unavailable" panel
      is not shown: `Skills3D` is shown whenever `view3D` is on. */
  lemma UnavailablePanelUnreachable(s: SkillsSectionState)
    requires s.Valid()
    ensures s.Panel() != UnavailablePanel
    ensures s.view3D ==> s.Panel() == Skills3DPanel
  {
  }
}
