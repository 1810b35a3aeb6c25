/** The upgrade shop (`shop.py`): six permanent upgrades bought with coins from the save
    data, each with an exponentially rising price and a maximum level, plus the purchase
    particles and the keyboard navigation. */
module Shop {
  import opened Common
  import opened Input
  import SaveSystem

  datatype Upgrade = Upgrade(id: string, baseCost: nat, maxLevel: nat, color: Color)

  /** The six upgrades, in menu order. */
  const Upgrades: seq<Upgrade> := [
    Upgrade("max_health", 100, 10, Color(255, 50, 50)),
    Upgrade("fire_rate", 150, 5, Color(255, 255, 50)),
    Upgrade("bullet_damage", 200, 5, Color(255, 100, 0)),
    Upgrade("speed", 120, 5, Color(50, 150, 255)),
    Upgrade("shield", 250, 3, Color(100, 200, 255)),
    Upgrade("coin_multiplier", 180, 5, Color(255, 215, 0))
  ]

  /** `get_upgrade_cost` at a given level: `int(base_cost * 1.5 ** level)`. */
  function UpgradeCost(u: Upgrade, level: int): (cost: int)
    ensures level >= 0 ==> cost >= u.baseCost
  {
    var price := u.baseCost as real * PowInt(1.5, level);
    assert level >= 0 ==> price >= u.baseCost as real by {
      if level >= 0 {
        MulLe(u.baseCost as real, 1.0, PowInt(1.5, level));
      }
    }
    Trunc(price)
  }

  /** The price never falls as the level rises. */
  lemma CostMonotone(u: Upgrade, a: int, b: int)
    requires 0 <= a <= b
    ensures UpgradeCost(u, a) <= UpgradeCost(u, b)
  {
    PowMonotone(1.5, a, b);
    MulLe(u.baseCost as real, PowInt(1.5, a), PowInt(1.5, b));
    PowMonotone(1.5, 0, a);
    MulLe(u.baseCost as real, 0.0, PowInt(1.5, a));
    TruncMonotone(u.baseCost as real * PowInt(1.5, a), u.baseCost as real * PowInt(1.5, b));
  }

  lemma TruncMonotone(x: real, y: real)
    requires 0.0 <= x <= y
    ensures Trunc(x) <= Trunc(y)
  {
  }

  /** One purchase particle: position, velocity, remaining and initial life, colour, size. */
  datatype Particle = Particle(x: real, y: real, vx: real, vy: real, life: int, maxLife: int, color: Color, size: real)

  /** The random part of a purchase particle: its velocity (from a random angle and a speed
      in [2, 8]) and its size in [2, 6]. */
  datatype ParticleDraw = ParticleDraw(vx: real, vy: real, size: real)

  /** The ranges of the draws: `(cos(a) * speed, sin(a) * speed)` has length `speed` in
      [2, 8], and the size is in [2, 6]. */
  predicate ParticleDrawInRange(d: ParticleDraw)
  {
    4.0 <= d.vx * d.vx + d.vy * d.vy <= 64.0 && 2.0 <= d.size <= 6.0
  }

  const PurchaseParticleCount: nat := 30

  /** `create_purchase_particles`: thirty particles at the screen centre, 60 frames of life. */
  function PurchaseParticles(width: int, height: int, color: Color, draws: seq<ParticleDraw>): (ps: seq<Particle>)
    requires forall i :: 0 <= i < |draws| ==> ParticleDrawInRange(draws[i])
    ensures |ps| == |draws|
    ensures forall i :: 0 <= i < |ps| ==> ps[i].life == 60 && ps[i].maxLife == 60 && ps[i].color == color
    ensures forall i :: 0 <= i < |ps| ==>
      ps[i].x == (width / 2) as real && ps[i].y == (height / 2) as real
      && ParticleDrawInRange(ParticleDraw(ps[i].vx, ps[i].vy, ps[i].size))
  {
    seq(|draws|, i requires 0 <= i < |draws| =>
      Particle((width / 2) as real, (height / 2) as real, draws[i].vx, draws[i].vy, 60, 60, color, draws[i].size))
  }

  /** One frame of a particle: it moves, gravity adds 0.2 to its vertical speed and it ages. */
  function StepParticle(p: Particle): (q: Particle)
    ensures q.life == p.life - 1 && q.color == p.color && q.maxLife == p.maxLife
  {
    p.(x := p.x + p.vx, y := p.y + p.vy, vy := p.vy + 0.2, life := p.life - 1)
  }

  /** The particle list after `update`: every particle stepped, those out of life removed. */
  function StepParticles(ps: seq<Particle>): (r: seq<Particle>)
    ensures |r| <= |ps|
    ensures forall q :: q in r ==> q.life > 0
    ensures forall p :: p in ps && p.life > 1 ==> StepParticle(p) in r
    ensures forall q :: q in r ==> exists p :: p in ps && q == StepParticle(p)
  {
    if ps == [] then []
    else
      var rest := StepParticles(ps[..|ps| - 1]);
      var last := StepParticle(ps[|ps| - 1]);
      assert forall p :: p in ps ==> p in ps[..|ps| - 1] || p == ps[|ps| - 1];
      if last.life <= 0 then rest else rest + [last]
  }

  datatype ShopAction = Navigate | Purchase | CannotAfford | Exit

  class Shop {
    const save: SaveSystem.SaveSystem
    const width: int
    const height: int
    var selectedUpgrade: int
    var animationFrame: real
    var particles: seq<Particle>

    /** The selection is a valid index and no upgrade level is negative or above its maximum. */
    ghost predicate Valid()
      reads this, save
    {
      save.Valid() && 0 <= selectedUpgrade < |Upgrades|
      && forall i :: 0 <= i < |Upgrades| ==> 0 <= save.UpgradeLevel(Upgrades[i].id) <= Upgrades[i].maxLevel
    }

    constructor (width: int, height: int, save: SaveSystem.SaveSystem)
      requires save.Valid()
      requires forall i :: 0 <= i < |Upgrades| ==> 0 <= save.UpgradeLevel(Upgrades[i].id) <= Upgrades[i].maxLevel
      ensures Valid() && this.save == save && this.width == width && this.height == height
      ensures selectedUpgrade == 0 && animationFrame == 0.0 && particles == []
    {
      this.save := save;
      this.width := width;
      this.height := height;
      selectedUpgrade := 0;
      animationFrame := 0.0;
      particles := [];
    }

    /** `get_upgrade_level`. */
    function Level(u: Upgrade): int
      reads this, save
    {
      save.UpgradeLevel(u.id)
    }

    /** `get_upgrade_cost`: the price at the current level. */
    function Cost(u: Upgrade): (cost: int)
      reads this, save
      ensures Level(u) >= 0 ==> cost >= u.baseCost
    {
      UpgradeCost(u, Level(u))
    }

    /** `can_afford`: the coins cover the price and the level is below the maximum. */
    function CanAfford(u: Upgrade): (r: bool)
      reads this, save
      ensures r ==> save.coins >= Cost(u) && Level(u) < u.maxLevel
      ensures save.coins >= Cost(u) && Level(u) < u.maxLevel ==> r
    {
      save.coins >= Cost(u) && Level(u) < u.maxLevel
    }

    /** `purchase_upgrade`: refuses and changes nothing when the upgrade cannot be afforded;
        otherwise pays exactly the price, raises the level by exactly one and adds the purchase
        particles. */
    method PurchaseUpgrade(index: nat, draws: seq<ParticleDraw>) returns (ok: bool)
      requires Valid() && index < |Upgrades| && |draws| == PurchaseParticleCount
      requires forall i :: 0 <= i < |draws| ==> ParticleDrawInRange(draws[i])
      modifies this, save
      ensures Valid()
      ensures var u := Upgrades[index];
        ok <==> old(save.coins) >= old(Cost(u)) && old(Level(u)) < u.maxLevel
      ensures var u := Upgrades[index];
        ok ==> (save.coins == old(save.coins) - old(Cost(u)) && Level(u) == old(Level(u)) + 1
          && particles == old(particles) + PurchaseParticles(width, height, u.color, draws)
          && save.upgrades == old(save.upgrades)[u.id := old(Level(u)) + 1])
      ensures !ok ==> unchanged(this) && unchanged(save)
      ensures save.highScores == old(save.highScores) && save.settings == old(save.settings)
      ensures save.stats == old(save.stats) && save.unlocks == old(save.unlocks)
    {
      var u := Upgrades[index];
      if !CanAfford(u) {
        return false;
      }
      var cost := Cost(u);
      var currentLevel := Level(u);
      var paid := save.SpendCoins(cost);
      save.UpgradeStat(u.id, currentLevel + 1);
      DistinctIds();
      particles := particles + PurchaseParticles(width, height, u.color, draws);
      return true;
    }

    /** `update`: advances the colour animation and steps the particles, dropping every
        particle whose life runs out. */
    method Update()
      modifies this
      ensures animationFrame == old(animationFrame) + 0.05
      ensures particles == StepParticles(old(particles))
      ensures selectedUpgrade == old(selectedUpgrade)
    {
      animationFrame := animationFrame + 0.05;
      var kept: seq<Particle> := [];
      var i := 0;
      while i < |particles|
        invariant 0 <= i <= |particles|
        invariant kept == StepParticles(particles[..i])
      {
        var p := StepParticle(particles[i]);
        assert particles[..i + 1][..i] == particles[..i];
        if p.life > 0 {
          kept := kept + [p];
        }
        i := i + 1;
      }
      assert particles[..i] == particles;
      particles := kept;
    }

    /** `handle_input`: Up and Down move the selection cyclically, Enter and Space try to buy
        the selected upgrade, Escape leaves; anything else is ignored. */
    method HandleInput(event: Event, draws: seq<ParticleDraw>) returns (action: Option<ShopAction>)
      requires Valid() && |draws| == PurchaseParticleCount
      requires forall i :: 0 <= i < |draws| ==> ParticleDrawInRange(draws[i])
      modifies this, save
      ensures Valid()
      ensures event.KeyDown? && event.key == Up ==>
        action == Some(Navigate) && selectedUpgrade == (old(selectedUpgrade) - 1) % |Upgrades|
      ensures event.KeyDown? && event.key == Down ==>
        action == Some(Navigate) && selectedUpgrade == (old(selectedUpgrade) + 1) % |Upgrades|
      ensures event.KeyDown? && (event.key == Enter || event.key == Space) ==>
        var u := Upgrades[old(selectedUpgrade)];
        action == (if old(save.coins) >= old(Cost(u)) && old(Level(u)) < u.maxLevel then Some(Purchase) else Some(CannotAfford))
      ensures event.KeyDown? && event.key == Escape ==> action == Some(Exit)
      ensures !(event.KeyDown? && event.key in {Up, Down, Enter, Space, Escape}) ==>
        action == None && unchanged(this) && unchanged(save)
    {
      action := None;
      if event.KeyDown? {
        if event.key == Up {
          selectedUpgrade := (selectedUpgrade - 1) % |Upgrades|;
          action := Some(Navigate);
        } else if event.key == Down {
          selectedUpgrade := (selectedUpgrade + 1) % |Upgrades|;
          action := Some(Navigate);
        } else if event.key == Enter || event.key == Space {
          var bought := PurchaseUpgrade(selectedUpgrade, draws);
          action := if bought then Some(Purchase) else Some(CannotAfford);
        } else if event.key == Escape {
          action := Some(Exit);
        }
      }
    }
  }

  /** The upgrade ids are distinct, so raising one level leaves the others alone. */
  lemma DistinctIds()
    ensures forall i, j :: 0 <= i < j < |Upgrades| ==> Upgrades[i].id != Upgrades[j].id
  {
  }
}
