/** The transparent particle background
    (src/components/TransparentParticleBackground.tsx): the intensity table and
    how the count is split between the point and shape systems. */
module TransparentParticleBackground {

  /** A row of the intensity table. */
  datatype ParticleConfig = ParticleConfig(count: nat, size: real, speed: real)

  /** `getParticleConfig`: "low", "medium" and "high" rows; any other
      intensity falls back to the medium row. */
  function GetParticleConfig(intensity: string, speed: real): (c: ParticleConfig)
    ensures intensity == "low" ==> c == ParticleConfig(200, 0.3, speed * 0.5)
    ensures intensity == "high" ==> c == ParticleConfig(1000, 0.8, speed * 1.5)
    ensures intensity != "low" && intensity != "high" ==> c == ParticleConfig(500, 0.5, speed)
    ensures c.count in {200, 500, 1000}
  {
    match intensity
    case "low" => ParticleConfig(200, 0.3, speed * 0.5)
    case "medium" => ParticleConfig(500, 0.5, speed)
    case "high" => ParticleConfig(1000, 0.8, speed * 1.5)
    case _ => ParticleConfig(500, 0.5, speed)
  }

  /** Which component draws a system. */
  datatype SystemKind = PointSystem | ShapeSystem

  /** One rendered particle system with its props. */
  datatype ParticleSystem = ParticleSystem(kind: SystemKind, count: nat, speed: real, size: real, opacity: real)

  /** `Math.floor` of a non-negative real. */
  function FloorNat(x: real): (n: nat)
    requires x >= 0.0
    ensures n as real <= x < n as real + 1.0
  {
    x.Floor
  }

  /** The systems rendered for a `type`: "points" draws the full count as
      points, "shapes" half of it (rounded down) as shapes, "mixed" 70% as
      points and 30% as shapes; any other type draws nothing. */
  function Systems(kind: string, c: ParticleConfig, opacity: real): (ss: seq<ParticleSystem>)
    ensures kind == "points" ==> |ss| == 1 && ss[0].kind == PointSystem && ss[0].count == c.count
    ensures kind == "shapes" ==> |ss| == 1 && ss[0].kind == ShapeSystem && ss[0].count == c.count / 2
    ensures kind == "mixed" ==> |ss| == 2 && ss[0].kind == PointSystem && ss[1].kind == ShapeSystem
    ensures kind !in {"points", "shapes", "mixed"} ==> ss == []
  {
    if kind == "points" then
      [ParticleSystem(PointSystem, c.count, c.speed, c.size, opacity)]
    else if kind == "shapes" then
      [ParticleSystem(ShapeSystem, FloorNat(c.count as real / 2.0), c.speed, c.size, opacity)]
    else if kind == "mixed" then
      [ParticleSystem(PointSystem, FloorNat(c.count as real * 0.7), c.speed, c.size * 0.8, opacity * 0.8),
       ParticleSystem(ShapeSystem, FloorNat(c.count as real * 0.3), c.speed * 1.2, c.size * 1.2, opacity * 1.2)]
    else
      []
  }

  /** Total particles across the rendered systems. */
  function TotalCount(ss: seq<ParticleSystem>): nat
  {
    if ss == [] then 0 else ss[0].count + TotalCount(ss[1..])
  }

  /** For every row of the table, "mixed" splits the count exactly: 70% and
      30% are whole numbers there, so nothing is lost to rounding; and no type
      draws more than the configured count. */
  lemma {:induction false} SplitPreservesCount(intensity: string, speed: real, kind: string, opacity: real)
    ensures var c := GetParticleConfig(intensity, speed);
            TotalCount(Systems(kind, c, opacity)) <= c.count
    ensures var c := GetParticleConfig(intensity, speed);
            kind == "mixed" ==>
              (TotalCount(Systems(kind, c, opacity)) == c.count
               && Systems(kind, c, opacity)[0].count == c.count * 7 / 10
               && Systems(kind, c, opacity)[1].count == c.count * 3 / 10)
  {
    var c := GetParticleConfig(intensity, speed);
    var ss := Systems(kind, c, opacity);
    if kind == "mixed" {
      var p, q := ss[0].count, ss[1].count;
      assert c.count as real * 0.7 == (c.count * 7 / 10) as real;
      assert c.count as real * 0.3 == (c.count * 3 / 10) as real;
      assert TotalCount(ss) == p + TotalCount(ss[1..]);
      assert TotalCount(ss[1..]) == q + TotalCount(ss[2..]);
    } else if kind == "points" || kind == "shapes" {
      assert TotalCount(ss) == ss[0].count + TotalCount(ss[1..]);
    }
  }
}
