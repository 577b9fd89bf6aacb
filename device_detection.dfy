/** Device classification and render-tier selection
    (src/hooks/useDeviceDetection.ts).

    The browser is an input: each measurement is an `Environment` holding what
    `window` and `navigator` report and whether a WebGL context could be made. */
module DeviceDetection {
  import opened Wrappers

  /** The record the hook publishes. */
  datatype DeviceInfo = DeviceInfo(
    isMobile: bool,
    isTablet: bool,
    isDesktop: bool,
    isLowEnd: bool,
    supportsWebGL: bool,
    devicePixelRatio: real,
    screenWidth: int,
    screenHeight: int)

  /** One reading of the browser: inner size, `devicePixelRatio` and
      `hardwareConcurrency` (either may be undefined), and whether the WebGL
      probe obtained a context. */
  datatype Environment = Environment(
    innerWidth: int,
    innerHeight: int,
    devicePixelRatio: Option<real>,
    hardwareConcurrency: Option<nat>,
    webGLContext: bool)

  /** Widths below this are phones. */
  const MobileBreakpoint: int := 768
  /** Widths from this on are desktops. */
  const DesktopBreakpoint: int := 1024

  /** The state before any measurement: a 1920x1080 desktop with WebGL. */
  const InitialDeviceInfo: DeviceInfo :=
    DeviceInfo(false, false, true, false, true, 1.0, 1920, 1080)

  /** `window.devicePixelRatio || 1`: an undefined or zero ratio reads as 1. */
  function EffectivePixelRatio(raw: Option<real>): (dpr: real)
    ensures dpr != 0.0
    ensures raw.Some? && raw.value != 0.0 ==> dpr == raw.value
    ensures raw.None? ==> dpr == 1.0
    ensures raw.Some? && raw.value == 0.0 ==> dpr == 1.0
  {
    if raw.Some? && raw.value != 0.0 then raw.value else 1.0
  }

  /** The low-end test: a ratio above 2, or a known non-zero core count below 4
      (an undefined or zero `hardwareConcurrency` is falsy and counts for nothing). */
  predicate LowEndSignals(dpr: real, cores: Option<nat>)
  {
    dpr > 2.0 || (if cores.Some? && cores.value != 0 then cores.value < 4 else false)
  }

  /** `updateDeviceInfo`: classify one reading. */
  function Measure(env: Environment): (d: DeviceInfo)
    ensures (d.isMobile && !d.isTablet && !d.isDesktop)
         || (!d.isMobile && d.isTablet && !d.isDesktop)
         || (!d.isMobile && !d.isTablet && d.isDesktop)
    ensures d.isMobile <==> env.innerWidth < MobileBreakpoint
    ensures d.isDesktop <==> DesktopBreakpoint <= env.innerWidth
    ensures d.isLowEnd <==> d.devicePixelRatio > 2.0 || (env.hardwareConcurrency.GetOr(0) in {1, 2, 3})
    ensures d.devicePixelRatio == EffectivePixelRatio(env.devicePixelRatio)
    ensures d.supportsWebGL == env.webGLContext
    ensures d.screenWidth == env.innerWidth && d.screenHeight == env.innerHeight
  {
    var width := env.innerWidth;
    var dpr := EffectivePixelRatio(env.devicePixelRatio);
    var isMobile := width < MobileBreakpoint;
    var isTablet := width >= MobileBreakpoint && width < DesktopBreakpoint;
    var isDesktop := width >= DesktopBreakpoint;
    var isLowEnd := LowEndSignals(dpr, env.hardwareConcurrency);
    DeviceInfo(isMobile, isTablet, isDesktop, isLowEnd, env.webGLContext, dpr, width, env.innerHeight)
  }

  /** The hook's state: the last measurement, overwritten on every resize. */
  class DeviceDetector {
    var deviceInfo: DeviceInfo

    constructor ()
      ensures deviceInfo == InitialDeviceInfo
    {
      deviceInfo := InitialDeviceInfo;
    }

    /** The mount-time call and the resize listener: the last reading wins. */
    method UpdateDeviceInfo(env: Environment)
      modifies this
      ensures deviceInfo == Measure(env)
    {
      deviceInfo := Measure(env);
    }
  }

  datatype Quality = QualityLow | QualityMedium | QualityHigh
  datatype PowerPreference = LowPower | HighPerformance

  /** The render-tier bundle; `dpr` is the pair `[dprMin, dprMax]`. */
  datatype PerformanceConfig = PerformanceConfig(
    enable3D: bool,
    particleCount: nat,
    quality: Quality,
    dprMin: real,
    dprMax: real,
    antialias: bool,
    powerPreference: PowerPreference)

  /** `getPerformanceConfig`: a first-match-wins table, total over every record,
      consistent or not. */
  function GetPerformanceConfig(d: DeviceInfo): (c: PerformanceConfig)
    ensures c.enable3D <==> d.supportsWebGL
    ensures !d.supportsWebGL ==> c.particleCount == 0
    ensures 0.0 < c.dprMin < c.dprMax <= 2.0
    ensures c.antialias <==> c.powerPreference == HighPerformance
    ensures c.particleCount <= 500
    ensures c.quality == QualityHigh <==> c.particleCount == 500
    ensures c.quality == QualityLow <==> !c.enable3D
  {
    if !d.supportsWebGL then
      PerformanceConfig(false, 0, QualityLow, 0.5, 1.0, false, LowPower)
    else if d.isMobile then
      PerformanceConfig(true, 100, QualityMedium, 0.5, 1.5, false, LowPower)
    else if d.isTablet then
      PerformanceConfig(true, 300, QualityMedium, 0.5, 2.0, true, HighPerformance)
    else
      PerformanceConfig(true, if d.isLowEnd then 250 else 500,
                        if d.isLowEnd then QualityMedium else QualityHigh,
                        1.0, 2.0, true, HighPerformance)
  }

  /** Where a classified device sits on the width scale. */
  function ViewportRank(d: DeviceInfo): nat
  {
    if d.isMobile then 0 else if d.isTablet then 1 else 2
  }

  /** The breakpoints: 767 is a phone, 768 and 1023 tablets, 1024 a desktop. */
  lemma WidthBoundaries(env: Environment)
    ensures env.innerWidth == 767 ==> Measure(env).isMobile
    ensures env.innerWidth == 768 ==> Measure(env).isTablet
    ensures env.innerWidth == 1023 ==> Measure(env).isTablet
    ensures env.innerWidth == 1024 ==> Measure(env).isDesktop
  {
  }

  /** Classification is monotone in the width: a wider viewport is never put in
      a narrower class. */
  lemma ClassificationMonotone(e1: Environment, e2: Environment)
    requires e1.innerWidth <= e2.innerWidth
    ensures ViewportRank(Measure(e1)) <= ViewportRank(Measure(e2))
  {
  }

  /** The width plays no part in the low-end test; an undefined or zero core
      count leaves it to the pixel ratio alone. */
  lemma LowEndIgnoresWidth(env: Environment, width: int)
    ensures Measure(env.(innerWidth := width)).isLowEnd == Measure(env).isLowEnd
    ensures env.hardwareConcurrency.GetOr(0) == 0 ==>
              (Measure(env).isLowEnd <==> EffectivePixelRatio(env.devicePixelRatio) > 2.0)
  {
  }

  /** The table row by row, in priority order; the first rule whose guard holds
      decides, whatever the later fields say. */
  lemma PriorityOrder(d: DeviceInfo)
    ensures !d.supportsWebGL ==>
              GetPerformanceConfig(d) == PerformanceConfig(false, 0, QualityLow, 0.5, 1.0, false, LowPower)
    ensures d.supportsWebGL && d.isMobile ==>
              GetPerformanceConfig(d) == PerformanceConfig(true, 100, QualityMedium, 0.5, 1.5, false, LowPower)
    ensures d.supportsWebGL && !d.isMobile && d.isTablet ==>
              GetPerformanceConfig(d) == PerformanceConfig(true, 300, QualityMedium, 0.5, 2.0, true, HighPerformance)
    ensures d.supportsWebGL && !d.isMobile && !d.isTablet ==>
              GetPerformanceConfig(d).particleCount == (if d.isLowEnd then 250 else 500)
              && GetPerformanceConfig(d).quality == (if d.isLowEnd then QualityMedium else QualityHigh)
              && GetPerformanceConfig(d).dprMin == 1.0 && GetPerformanceConfig(d).dprMax == 2.0
              && GetPerformanceConfig(d).antialias
  {
  }

  /** The state before the first measurement is what measuring a 1920x1080
      desktop with ratio 1, no core count and WebGL produces, and it selects the
      richest tier. */
  lemma InitialStateIsDesktop()
    ensures InitialDeviceInfo == Measure(Environment(1920, 1080, Some(1.0), None, true))
    ensures GetPerformanceConfig(InitialDeviceInfo).particleCount == 500
    ensures GetPerformanceConfig(InitialDeviceInfo).quality == QualityHigh
  {
  }

  /** Measuring then selecting: the particle budget as a function of the reading. */
  lemma MeasuredParticleBudget(env: Environment)
    ensures GetPerformanceConfig(Measure(env)).particleCount ==
              if !env.webGLContext then 0
              else if env.innerWidth < 768 then 100
              else if env.innerWidth < 1024 then 300
              else if Measure(env).isLowEnd then 250
              else 500
  {
  }

  /** A phone 400 wide with ratio 3 and WebGL is a low-end phone that still gets
      3D with 100 particles; without WebGL any reading gets no 3D and no particles. */
  lemma Scenarios(env: Environment)
    ensures env.innerWidth == 400 && env.devicePixelRatio == Some(3.0) && env.webGLContext ==>
              Measure(env).isMobile && Measure(env).isLowEnd
              && GetPerformanceConfig(Measure(env)).enable3D
              && GetPerformanceConfig(Measure(env)).particleCount == 100
    ensures !env.webGLContext ==>
              !GetPerformanceConfig(Measure(env)).enable3D
              && GetPerformanceConfig(Measure(env)).particleCount == 0
  {
  }

  /** Only a low-end reading can make a wider viewport get fewer particles: a
      low-end desktop (250) gets fewer than any tablet (300), while otherwise the
      budget grows with the width. */
  lemma BudgetAlongWidth(e1: Environment, e2: Environment)
    requires e1.innerWidth <= e2.innerWidth
    requires e1.webGLContext && e2.webGLContext
    ensures !Measure(e2).isLowEnd ==>
              GetPerformanceConfig(Measure(e1)).particleCount <= GetPerformanceConfig(Measure(e2)).particleCount
    ensures e1.innerWidth == 1023 && e2.innerWidth == 1024 && Measure(e2).isLowEnd ==>
              GetPerformanceConfig(Measure(e2)).particleCount < GetPerformanceConfig(Measure(e1)).particleCount
  {
  }
}
