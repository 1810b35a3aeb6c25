/** Visual scenarios (`scenario_system.py`): eight themed backgrounds chosen by level, each
    with its colours and at most one family of ambient particles, and the renderer state that
    moves those particles frame by frame. */
module ScenarioSystem {
  import opened Common

  datatype ScenarioType = Space | Desert | Ocean | Fire | Ice | Forest | Cyber | Void

  /** The optional effect flags a configuration may set (`sandstorm`, `bubbles`, ...). */
  datatype Effect = Sandstorm | Bubbles | Waves | Flames | HeatDistortion | Snowfall | IceCrystals
    | Fireflies | Vines | NeonSigns | DigitalRain | GridLines | VoidRifts | RealityDistortion

  /** A scenario's configuration; `effects` holds the flags it sets to True. The display
      texts of the same dictionary (`name`, `icon`, `description`) are given by `TitleOf`. */
  datatype Config = Config(
    bgColor: Color, tunnelColors: seq<Color>, particleColors: seq<Color>,
    starDensity: real, ambientLight: real, effects: set<Effect>)

  /** The display texts of a configuration. */
  datatype Title = Title(name: string, icon: string, description: string)

  const SpaceConfig: Config := Config(Color(10, 10, 30),
    [Color(50, 50, 100), Color(30, 30, 80), Color(70, 70, 120)],
    [Color(255, 255, 255), Color(200, 200, 255), Color(150, 150, 255)],
    1.0, 0.3, {})

  /** The shape every configuration has: three tunnel and three particle colours, star
      density and ambient light in [0, 1]. */
  predicate WellFormed(c: Config)
  {
    |c.tunnelColors| == 3 && |c.particleColors| == 3
    && 0.0 <= c.starDensity <= 1.0 && 0.0 <= c.ambientLight <= 1.0
  }

  /** `ScenarioConfig.get_config`; None stands for a value that is not a scenario type, which
      falls back to deep space. */
  function ConfigOf(t: Option<ScenarioType>): (c: Config)
    ensures WellFormed(c)
    ensures t.None? || t == Some(Space) ==> c == SpaceConfig
  {
    match t
    case Some(Desert) => Config(Color(139, 90, 43),
      [Color(194, 133, 80), Color(160, 82, 45), Color(210, 150, 90)],
      [Color(255, 200, 100), Color(255, 150, 50), Color(255, 220, 150)],
      0.3, 0.7, {Sandstorm})
    case Some(Ocean) => Config(Color(0, 50, 100),
      [Color(0, 100, 150), Color(0, 80, 130), Color(0, 120, 170)],
      [Color(0, 255, 255), Color(100, 200, 255), Color(50, 150, 255)],
      0.0, 0.4, {Bubbles, Waves})
    case Some(Fire) => Config(Color(80, 20, 0),
      [Color(255, 100, 0), Color(255, 50, 0), Color(255, 150, 0)],
      [Color(255, 200, 0), Color(255, 150, 0), Color(255, 100, 0)],
      0.0, 0.8, {Flames, HeatDistortion})
    case Some(Ice) => Config(Color(200, 220, 255),
      [Color(220, 230, 255), Color(180, 200, 255), Color(240, 245, 255)],
      [Color(255, 255, 255), Color(200, 220, 255), Color(180, 200, 255)],
      0.5, 0.9, {Snowfall, IceCrystals})
    case Some(Forest) => Config(Color(20, 50, 20),
      [Color(50, 150, 50), Color(30, 100, 30), Color(70, 180, 70)],
      [Color(100, 255, 100), Color(150, 255, 150), Color(50, 255, 50)],
      0.2, 0.5, {Fireflies, Vines})
    case Some(Cyber) => Config(Color(20, 0, 40),
      [Color(255, 0, 255), Color(0, 255, 255), Color(255, 0, 128)],
      [Color(255, 0, 255), Color(0, 255, 255), Color(255, 100, 255)],
      0.0, 0.6, {NeonSigns, DigitalRain, GridLines})
    case Some(Void) => Config(Color(5, 0, 10),
      [Color(100, 0, 150), Color(80, 0, 120), Color(120, 0, 180)],
      [Color(200, 0, 255), Color(150, 0, 200), Color(255, 0, 255)],
      0.8, 0.2, {VoidRifts, RealityDistortion})
    case _ => SpaceConfig
  }

  /** The `name`, `icon` and `description` of `get_config`'s dictionary; every scenario has
      all three, and an unknown type shows deep space's. */
  function TitleOf(t: Option<ScenarioType>): (r: Title)
    ensures r.name != [] && r.icon != [] && r.description != []
    ensures t.None? || t == Some(Space) ==> r.name == "Deep Space"
  {
    match t
    case Some(Desert) => Title("Alien Desert", "\U{1F3DC}\U{FE0F}", "Atravessando dunas alienígenas")
    case Some(Ocean) => Title("Deep Ocean", "\U{1F30A}", "Navegando nas profundezas")
    case Some(Fire) => Title("Inferno World", "\U{1F525}", "Atravessando rios de lava")
    case Some(Ice) => Title("Frozen Planet", "\U{2744}\U{FE0F}", "Deslizando por cristais de gelo")
    case Some(Forest) => Title("Mystic Forest", "\U{1F333}", "Voando por uma floresta alienígena")
    case Some(Cyber) => Title("Neon City", "\U{1F303}", "Atravessando uma metrópole cyberpunk")
    case Some(Void) => Title("Dimensional Void", "\U{1F573}\U{FE0F}", "Navegando entre dimensões")
    case _ => Title("Deep Space", "\U{1F30C}", "Viajando pelo espaço profundo")
  }

  /** The scenarios in level order, five levels each. */
  const Progression: seq<ScenarioType> := [Space, Desert, Ocean, Fire, Ice, Forest, Cyber, Void]

  /** The list index `get_scenario_for_level` computes: `min((level - 1) // 5, 7)`. */
  function LevelIndex(level: int): (i: int)
    ensures i <= |Progression| - 1
    ensures level >= 1 ==> 0 <= i && (i < |Progression| - 1 ==> 5 * i + 1 <= level <= 5 * i + 5)
    ensures level >= 36 ==> i == |Progression| - 1
  {
    MinI((level - 1) / 5, |Progression| - 1)
  }

  /** `get_scenario_for_level`. For levels below 1 the index is negative and Python counts it
      from the end of the list; below -39 that raises IndexError, here None. */
  function ScenarioForLevel(level: int): (r: Option<ScenarioType>)
    ensures level >= 1 ==> r == Some(Progression[LevelIndex(level)])
    ensures 1 <= level <= 5 ==> r == Some(Space)
    ensures level >= 36 ==> r == Some(Void)
    ensures r.None? <==> LevelIndex(level) < -|Progression|
  {
    var i := LevelIndex(level);
    if i >= 0 then Some(Progression[i])
    else if i >= -|Progression| then Some(Progression[|Progression| + i])
    else None
  }

  /** Level 0 is sent to the last scenario by the negative index. */
  lemma LevelZeroIsVoid()
    ensures ScenarioForLevel(0) == Some(Void)
  {
  }

  /** From level 1 on a higher level never returns to an earlier scenario. */
  lemma ScenarioMonotone(a: int, b: int)
    requires 1 <= a <= b
    ensures LevelIndex(a) <= LevelIndex(b)
  {
  }

  /** `get_random_scenario`, for a random index into the eight types. */
  function RandomScenario(pick: nat): (t: ScenarioType)
    requires pick < |Progression|
    ensures t in Progression
  {
    Progression[pick]
  }

  // ---------------------------------------------------------------------------
  // Ambient particles
  // ---------------------------------------------------------------------------

  datatype AmbientKind = Sand | Bubble | Snow | Firefly | Digital

  /** An ambient particle. `size` is the length for digital rain; `sway` is used by snow and
      `glow` by fireflies. */
  datatype Ambient = Ambient(kind: AmbientKind, x: real, y: real, speed: real, size: int, sway: real, glow: real)

  /** The family `init_scenario_effects` creates: the first flag of its `elif` chain. */
  function Family(c: Config): (k: Option<AmbientKind>)
    ensures k.None? <==> (Sandstorm !in c.effects && Bubbles !in c.effects && Snowfall !in c.effects
      && Fireflies !in c.effects && DigitalRain !in c.effects)
  {
    if Sandstorm in c.effects then Some(Sand)
    else if Bubbles in c.effects then Some(Bubble)
    else if Snowfall in c.effects then Some(Snow)
    else if Fireflies in c.effects then Some(Firefly)
    else if DigitalRain in c.effects then Some(Digital)
    else None
  }

  /** How many particles each family has. */
  function FamilySize(k: AmbientKind): (n: nat)
    ensures n > 0
  {
    match k
    case Sand => 50
    case Bubble => 30
    case Snow => 100
    case Firefly => 40
    case Digital => 20
  }

  /** Which family each scenario gets: only desert, ocean, ice, forest and cyber have one. */
  lemma FamilyOfScenario(t: ScenarioType)
    ensures Family(ConfigOf(Some(t))) == match t
      case Desert => Some(Sand)
      case Ocean => Some(Bubble)
      case Ice => Some(Snow)
      case Forest => Some(Firefly)
      case Cyber => Some(Digital)
      case _ => None
  {
    match t
    case Desert =>
    case Ocean =>
    case Ice =>
    case Forest =>
    case Cyber =>
    case Space =>
    case Fire =>
    case Void =>
  }

  /** The random values one particle is created from: the `randint`/`uniform` results for its
      position, speed and size (or length), and its sway or glow. */
  datatype AmbientDraw = AmbientDraw(x: int, y: int, speed: real, size: int, extra: real)

  /** The ranges the random calls of each `create_*` method draw from. */
  ghost predicate DrawFits(k: AmbientKind, d: AmbientDraw, width: int, height: int)
  {
    0 <= d.x <= width
    && match k
      case Sand => 0 <= d.y <= height && 2.0 <= d.speed <= 5.0 && 2 <= d.size <= 4
      case Bubble => height / 2 <= d.y <= height && 0.5 <= d.speed <= 2.0 && 3 <= d.size <= 8
      case Snow => 0 <= d.y <= height && 1.0 <= d.speed <= 3.0 && 2 <= d.size <= 5 && -1.0 <= d.extra <= 1.0
      case Firefly => 0 <= d.y <= height && 0.5 <= d.speed <= 1.5 && d.size == 3 && 0.0 <= d.extra <= 1.0
      case Digital => -height <= d.y <= 0 && 3.0 <= d.speed <= 7.0 && 10 <= d.size <= 30
  }

  /** One created particle. */
  function Create(k: AmbientKind, d: AmbientDraw): (p: Ambient)
    ensures p.kind == k && p.x == d.x as real && p.y == d.y as real && p.speed == d.speed
  {
    match k
    case Snow => Ambient(k, d.x as real, d.y as real, d.speed, d.size, d.extra, 0.0)
    case Firefly => Ambient(k, d.x as real, d.y as real, d.speed, 3, 0.0, d.extra)
    case _ => Ambient(k, d.x as real, d.y as real, d.speed, d.size, 0.0, 0.0)
  }

  /** The per-family bounds that `update` keeps: sand stays on the screen, bubbles never
      above 10 pixels over the top, snow and digital rain never below the bottom. */
  ghost predicate InBand(p: Ambient, width: int, height: int)
  {
    match p.kind
    case Sand => 0.0 <= p.x <= width as real && 0.0 <= p.y <= height as real && p.speed >= 0.0
    case Bubble => p.y >= -10.0
    case Snow => p.y <= height as real
    case Firefly => true
    case Digital => p.y <= height as real && p.size >= 0
  }

  lemma CreatedInBand(k: AmbientKind, d: AmbientDraw, width: int, height: int)
    requires 0 <= height && DrawFits(k, d, width, height)
    ensures InBand(Create(k, d), width, height)
  {
  }

  /** One frame of one particle at animation time `t`; `newX` is the random column a digital
      drop takes when it wraps to the top. */
  function StepAmbient(p: Ambient, width: int, height: int, t: real,
                       sin: real -> real, cos: real -> real, newX: int): (q: Ambient)
    ensures q.kind == p.kind && q.speed == p.speed && q.size == p.size
    ensures 0 <= height && InBand(p, width, height) ==> InBand(q, width, height)
    ensures p.kind == Firefly && (forall z :: -1.0 <= sin(z) <= 1.0) ==> 0.0 <= q.glow <= 1.0
  {
    match p.kind
    case Sand =>
      var x := p.x + p.speed;
      var y := p.y + p.speed * 0.3;
      p.(x := if x > width as real then 0.0 else x, y := if y > height as real then 0.0 else y)
    case Bubble =>
      var y := p.y - p.speed;
      p.(y := if y < -10.0 then height as real + 10.0 else y)
    case Snow =>
      var y := p.y + p.speed;
      p.(x := p.x + p.sway, y := if y > height as real then -10.0 else y)
    case Firefly =>
      var glow := (sin(t * 3.0 + p.x) + 1.0) / 2.0;
      var x := p.x + sin(t + p.y) * 0.5;
      p.(glow := glow, x := x, y := p.y + cos(t * 1.5 + x) * 0.3)
    case Digital =>
      var y := p.y + p.speed;
      if y > height as real then p.(y := -(p.size as real), x := newX as real) else p.(y := y)
  }

  /** `get_tunnel_color`: `int(depth * n) % n` always indexes the colour list, and a depth in
      [0, 1) picks the colour of its third of the tunnel. */
  function TunnelColorOf(config: Config, depth: real): (c: Color)
    requires WellFormed(config)
    ensures c in config.tunnelColors
    ensures 0.0 <= depth < 1.0 ==> c == config.tunnelColors[Trunc(depth * 3.0)]
  {
    var n := |config.tunnelColors|;
    config.tunnelColors[Trunc(depth * n as real) % n]
  }

  class ScenarioRenderer {
    const width: int
    const height: int
    var currentScenario: Option<ScenarioType>
    var config: Config
    var ambientParticles: seq<Ambient>
    var animationTime: real

    /** The configuration is the current scenario's and every particle is within its band. */
    ghost predicate Valid()
      reads this
    {
      0 <= height && config == ConfigOf(currentScenario)
      && forall i :: 0 <= i < |ambientParticles| ==> InBand(ambientParticles[i], width, height)
    }

    constructor (width: int, height: int)
      requires 0 <= height
      ensures Valid() && this.width == width && this.height == height
      ensures currentScenario == Some(Space) && ambientParticles == [] && animationTime == 0.0
    {
      this.width := width;
      this.height := height;
      currentScenario := Some(Space);
      config := ConfigOf(Some(Space));
      ambientParticles := [];
      animationTime := 0.0;
    }

    /** `set_scenario`: switches configuration, clears the particles and creates the one
        family the configuration asks for, from `draws`, one per particle. */
    method SetScenario(t: Option<ScenarioType>, draws: seq<AmbientDraw>)
      requires Valid()
      requires Family(ConfigOf(t)).Some? ==> (|draws| == FamilySize(Family(ConfigOf(t)).value)
        && forall i :: 0 <= i < |draws| ==> DrawFits(Family(ConfigOf(t)).value, draws[i], width, height))
      modifies this
      ensures Valid()
      ensures currentScenario == t && config == ConfigOf(t) && animationTime == old(animationTime)
      ensures Family(config).None? ==> ambientParticles == []
      ensures Family(config).Some? ==>
        |ambientParticles| == FamilySize(Family(config).value)
        && forall i :: 0 <= i < |ambientParticles| ==> ambientParticles[i] == Create(Family(config).value, draws[i])
    {
      currentScenario := t;
      config := ConfigOf(t);
      ambientParticles := [];
      InitScenarioEffects(draws);
    }

    /** `init_scenario_effects` with the chosen family's `create_*` loop. */
    method InitScenarioEffects(draws: seq<AmbientDraw>)
      requires Valid() && ambientParticles == []
      requires Family(config).Some? ==> (|draws| == FamilySize(Family(config).value)
        && forall i :: 0 <= i < |draws| ==> DrawFits(Family(config).value, draws[i], width, height))
      modifies this
      ensures Valid()
      ensures currentScenario == old(currentScenario) && config == old(config) && animationTime == old(animationTime)
      ensures Family(config).None? ==> ambientParticles == []
      ensures Family(config).Some? ==>
        |ambientParticles| == FamilySize(Family(config).value)
        && forall i :: 0 <= i < |ambientParticles| ==> ambientParticles[i] == Create(Family(config).value, draws[i])
    {
      var family := Family(config);
      if family.Some? {
        var k := family.value;
        var i := 0;
        while i < FamilySize(k)
          invariant 0 <= i <= FamilySize(k)
          invariant Valid() && config == old(config) && currentScenario == old(currentScenario)
          invariant animationTime == old(animationTime)
          invariant |ambientParticles| == i
          invariant forall j :: 0 <= j < i ==> ambientParticles[j] == Create(k, draws[j])
        {
          CreatedInBand(k, draws[i], width, height);
          ambientParticles := ambientParticles + [Create(k, draws[i])];
          i := i + 1;
        }
      }
    }

    /** `update`: advances the animation clock and moves every particle one frame; each
        particle stays within its band. `newXs` are the random columns, one per particle. */
    method Update(dt: real, sin: real -> real, cos: real -> real, newXs: seq<int>)
      requires Valid() && |newXs| == |ambientParticles|
      modifies this
      ensures Valid()
      ensures animationTime == old(animationTime) + dt
      ensures currentScenario == old(currentScenario) && config == old(config)
      ensures |ambientParticles| == |old(ambientParticles)|
      ensures forall i :: 0 <= i < |ambientParticles| ==>
        ambientParticles[i] == StepAmbient(old(ambientParticles)[i], width, height, animationTime, sin, cos, newXs[i])
    {
      animationTime := animationTime + dt;
      var i := 0;
      while i < |ambientParticles|
        invariant 0 <= i <= |ambientParticles| == |old(ambientParticles)|
        invariant Valid() && config == old(config) && currentScenario == old(currentScenario)
        invariant animationTime == old(animationTime) + dt
        invariant forall j :: 0 <= j < i ==>
          ambientParticles[j] == StepAmbient(old(ambientParticles)[j], width, height, animationTime, sin, cos, newXs[j])
        invariant forall j :: i <= j < |ambientParticles| ==> ambientParticles[j] == old(ambientParticles)[j]
      {
        ambientParticles := ambientParticles[i := StepAmbient(ambientParticles[i], width, height, animationTime, sin, cos, newXs[i])];
        i := i + 1;
      }
    }

    /** `get_tunnel_color` for the current configuration. */
    function TunnelColor(depth: real): (c: Color)
      reads this
      requires Valid()
      ensures c in config.tunnelColors
      ensures 0.0 <= depth < 1.0 ==> c == config.tunnelColors[Trunc(depth * 3.0)]
    {
      TunnelColorOf(config, depth)
    }

    /** `get_background_color`. */
    function BackgroundColor(): (c: Color)
      reads this
      requires Valid()
      ensures c == ConfigOf(currentScenario).bgColor
    {
      config.bgColor
    }
  }
}
