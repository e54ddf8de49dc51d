/** The frame-driven helper objects of frontend/src/utils/sprites.js: a
    sprite animation counter, the particle system used for visual cues and
    the parallax background scroller. Drawing is not modelled. */
module Sprites {
  import opened Constants

  // ---------------------------------------------------------------------
  // AnimatedSprite

  /** One `update()` of an animation counter: the timer counts frames and
      the animation advances (cyclically) when it reaches `animSpeed`. */
  function Tick(frameCount: nat, animSpeed: nat, frame: nat, timer: nat): (r: (nat, nat))
    requires frameCount >= 1
  {
    if timer + 1 >= animSpeed then ((frame + 1) % frameCount, 0) else (frame, timer + 1)
  }

  /** `n` successive updates. */
  function TickN(frameCount: nat, animSpeed: nat, frame: nat, timer: nat, n: nat): (r: (nat, nat))
    requires frameCount >= 1
    decreases n
  {
    if n == 0 then (frame, timer)
    else
      var s := TickN(frameCount, animSpeed, frame, timer, n - 1);
      Tick(frameCount, animSpeed, s.0, s.1)
  }

  /** One update keeps the frame in [0, frameCount) and the timer in
      [0, animSpeed). */
  lemma TickStaysInRange(frameCount: nat, animSpeed: nat, frame: nat, timer: nat)
    requires frameCount >= 1 && animSpeed >= 1
    requires frame < frameCount && timer < animSpeed
    ensures Tick(frameCount, animSpeed, frame, timer).0 < frameCount
    ensures Tick(frameCount, animSpeed, frame, timer).1 < animSpeed
  {
  }

  /** Within one period the frame holds still: from any frame with the timer
      at `t`, the next `k` updates (while `t + k < animSpeed`) only count the
      timer up. */
  lemma {:induction false} FrameHoldsWithinPeriod(
    frameCount: nat, animSpeed: nat, frame: nat, timer: nat, k: nat)
    requires frameCount >= 1 && timer + k < animSpeed
    ensures TickN(frameCount, animSpeed, frame, timer, k) == (frame, timer + k)
  {
    if k > 0 {
      FrameHoldsWithinPeriod(frameCount, animSpeed, frame, timer, k - 1);
    }
  }

  /** The animation advances by one frame (modulo frameCount) exactly once
      every `animSpeed` updates: from a reset timer, the first
      `animSpeed - 1` updates keep the frame, and the `animSpeed`-th moves it
      on by one and resets the timer, so the cycle repeats. */
  lemma {:induction false} AnimationAdvancesEveryAnimSpeed(
    frameCount: nat, animSpeed: nat, frame: nat, k: nat)
    requires frameCount >= 1 && animSpeed >= 1
    requires k <= animSpeed
    ensures k < animSpeed ==> TickN(frameCount, animSpeed, frame, 0, k) == (frame, k)
    ensures k == animSpeed ==> TickN(frameCount, animSpeed, frame, 0, k) == ((frame + 1) % frameCount, 0)
  {
    if k < animSpeed {
      FrameHoldsWithinPeriod(frameCount, animSpeed, frame, 0, k);
    } else {
      FrameHoldsWithinPeriod(frameCount, animSpeed, frame, 0, k - 1);
    }
  }

  /** Updates compose: `m + n` updates are `m` updates followed by `n`. */
  lemma {:induction false} TickNAdds(frameCount: nat, animSpeed: nat, frame: nat, timer: nat, m: nat, n: nat)
    requires frameCount >= 1
    ensures var s := TickN(frameCount, animSpeed, frame, timer, m);
      TickN(frameCount, animSpeed, frame, timer, m + n) == TickN(frameCount, animSpeed, s.0, s.1, n)
    decreases n
  {
    if n > 0 {
      TickNAdds(frameCount, animSpeed, frame, timer, m, n - 1);
    }
  }

  /** `AnimatedSprite`: `currentFrame` cycles through the sprite sheet,
      advanced by `update()` once every `animSpeed` calls. */
  class AnimatedSprite {
    const spriteKey: string
    const frameCount: nat
    const animSpeed: nat
    var currentFrame: nat
    var frameTimer: nat

    ghost predicate Valid()
      reads this
    {
      frameCount >= 1 && animSpeed >= 1 && currentFrame < frameCount && frameTimer < animSpeed
    }

    constructor (spriteKey: string, frameCount: nat, animSpeed: nat)
      requires frameCount >= 1 && animSpeed >= 1
      ensures Valid()
      ensures this.spriteKey == spriteKey && this.frameCount == frameCount && this.animSpeed == animSpeed
      ensures currentFrame == 0 && frameTimer == 0
    {
      this.spriteKey := spriteKey;
      this.frameCount := frameCount;
      this.animSpeed := animSpeed;
      currentFrame := 0;
      frameTimer := 0;
    }

    method Update()
      requires Valid()
      modifies this
      ensures Valid()
      ensures (currentFrame, frameTimer) == Tick(frameCount, animSpeed, old(currentFrame), old(frameTimer))
    {
      frameTimer := frameTimer + 1;
      if frameTimer >= animSpeed {
        currentFrame := (currentFrame + 1) % frameCount;
        frameTimer := 0;
      }
    }
  }

  // ---------------------------------------------------------------------
  // ParticleSystem

  datatype Particle = Particle(
    x: real, y: real, vx: real, vy: real,
    life: int, maxLife: int, kind: string, size: real, color: string)

  const PARTICLE_LIFE: int := 30

  /** The five particle kinds that have a colour of their own. */
  const KNOWN_PARTICLE_KINDS: seq<string> := ["explosion", "speed", "shield", "collect", "jump"]

  /** `getParticleColor`: a fixed colour per known kind, white otherwise. */
  function ParticleColor(kind: string): (r: string)
    ensures kind !in KNOWN_PARTICLE_KINDS <==> r == "#ffffff"
    ensures kind == "explosion" ==> r == "#ff4444"
    ensures kind == "jump" ==> r == "#ff8800"
    ensures kind == "collect" ==> r == "#ffaa00"
    ensures kind == "speed" ==> r == "#00ff88"
    ensures kind == "shield" ==> r == "#0088ff"
  {
    if kind == "explosion" then "#ff4444"
    else if kind == "speed" then "#00ff88"
    else if kind == "shield" then "#0088ff"
    else if kind == "collect" then "#ffaa00"
    else if kind == "jump" then "#ff8800"
    else "#ffffff"
  }

  /** Each known kind has a colour of its own: two different known kinds
      never share one, and none of them is the fallback white. */
  lemma ParticleColorsDistinct(a: string, b: string)
    requires a in KNOWN_PARTICLE_KINDS && b in KNOWN_PARTICLE_KINDS
    ensures a != b <==> ParticleColor(a) != ParticleColor(b)
    ensures ParticleColor(a) != "#ffffff"
  {
  }

  /** The particle `addParticle(x, y, kind)` creates from three draws of
      `Math.random()` (for vx, vy and size, in that order). */
  function NewParticle(x: real, y: real, kind: string, r1: Unit, r2: Unit, r3: Unit): (p: Particle)
    ensures p.life == PARTICLE_LIFE && p.maxLife == PARTICLE_LIFE
    ensures p.x == x && p.y == y && p.kind == kind && p.color == ParticleColor(kind)
    ensures -5.0 <= p.vx < 5.0 && -5.0 <= p.vy < 5.0 && 2.0 <= p.size < 6.0
  {
    Particle(x, y, (r1 - 0.5) * 10.0, (r2 - 0.5) * 10.0, PARTICLE_LIFE, PARTICLE_LIFE,
             kind, r3 * 4.0 + 2.0, ParticleColor(kind))
  }

  /** One frame of motion for a particle: velocity, gravity 0.3, drag 0.99
      and one unit of life. */
  function Advance(p: Particle): (q: Particle)
    ensures q.life == p.life - 1 && q.maxLife == p.maxLife && q.kind == p.kind
  {
    p.(x := p.x + p.vx, y := p.y + p.vy, vy := p.vy + 0.3, vx := p.vx * 0.99, life := p.life - 1)
  }

  /** What `ParticleSystem.update()` leaves: every particle advanced, those
      whose life reached 0 dropped. */
  function Decayed(ps: seq<Particle>): (r: seq<Particle>)
    ensures |r| <= |ps|
    ensures forall i :: 0 <= i < |r| ==> r[i].life > 0
  {
    if ps == [] then []
    else
      var q := Advance(ps[|ps| - 1]);
      Decayed(ps[..|ps| - 1]) + (if q.life > 0 then [q] else [])
  }

  /** Decay treats each particle on its own and keeps their order. */
  lemma {:induction false} DecayedDistributes(a: seq<Particle>, b: seq<Particle>)
    ensures Decayed(a + b) == Decayed(a) + Decayed(b)
    decreases |b|
  {
    if b == [] {
      assert a + b == a;
    } else {
      var b' := b[..|b| - 1];
      assert (a + b)[..|a + b| - 1] == a + b';
      assert (a + b)[|a + b| - 1] == b[|b| - 1];
      DecayedDistributes(a, b');
    }
  }

  /** A single particle survives one update, one life shorter, exactly when
      its life was above 1. */
  lemma DecayedSingle(p: Particle)
    ensures Decayed([p]) == if p.life > 1 then [Advance(p)] else []
  {
    assert [p][..0] == [];
  }

  /** A freshly added particle is still there after 29 updates and gone
      after the 30th. */
  lemma {:induction false} ParticleLivesThirtyFrames(p: Particle, n: nat)
    requires p.life == PARTICLE_LIFE
    ensures DecayedN([p], n) == if n < 30 then [AdvanceN(p, n)] else []
  {
    if n > 0 {
      ParticleLivesThirtyFrames(p, n - 1);
      var q := AdvanceN(p, n - 1);
      if n - 1 < 30 {
        assert DecayedN([p], n) == Decayed([q]);
        DecayedSingle(q);
      } else {
        assert DecayedN([p], n) == Decayed([]);
      }
    }
  }

  function AdvanceN(p: Particle, n: nat): (q: Particle)
    ensures q.life == p.life - n
  {
    if n == 0 then p else Advance(AdvanceN(p, n - 1))
  }

  function DecayedN(ps: seq<Particle>, n: nat): seq<Particle>
  {
    if n == 0 then ps else Decayed(DecayedN(ps, n - 1))
  }

  /** `ParticleSystem`: the list of live visual-cue particles. */
  class ParticleSystem {
    var particles: seq<Particle>

    constructor ()
      ensures particles == []
    {
      particles := [];
    }

    /** `addParticle(x, y, kind)`; the three `Math.random()` draws are
        passed in. */
    method AddParticle(x: real, y: real, kind: string, r1: Unit, r2: Unit, r3: Unit)
      modifies this
      ensures particles == old(particles) + [NewParticle(x, y, kind, r1, r2, r3)]
    {
      var p := Particle(x, y, (r1 - 0.5) * 10.0, (r2 - 0.5) * 10.0, PARTICLE_LIFE, PARTICLE_LIFE,
                        kind, r3 * 4.0 + 2.0, ParticleColor(kind));
      particles := particles + [p];
    }

    /** `update()`: the filter that advances every particle and keeps the
        living ones. */
    method Update()
      modifies this
      ensures particles == Decayed(old(particles))
    {
      var kept: seq<Particle> := [];
      var i := 0;
      while i < |particles|
        invariant 0 <= i <= |particles|
        invariant kept == Decayed(particles[..i])
      {
        var q := Advance(particles[i]);
        assert particles[..i + 1][..i] == particles[..i];
        if q.life > 0 {
          kept := kept + [q];
        }
        i := i + 1;
      }
      assert particles[..i] == particles;
      particles := kept;
    }

    method Clear()
      modifies this
      ensures particles == []
    {
      particles := [];
    }
  }

  // ---------------------------------------------------------------------
  // BackgroundManager

  datatype Layer = Layer(x: real, speed: real, color: string)

  /** The three parallax layers the constructor creates. */
  const INITIAL_LAYERS: seq<Layer> :=
    [Layer(0.0, 0.5, "#0f1419"), Layer(0.0, 1.0, "#1a2332"), Layer(0.0, 2.0, "#2d4263")]

  /** One layer after a frame: moved left by `speed * gameSpeed`, wrapped
      back to 0 once it has moved a whole width. */
  function ScrollLayer(l: Layer, width: real, gameSpeed: real): (r: Layer)
    requires width > 0.0
    ensures r.speed == l.speed && r.color == l.color
    ensures r.x > -width
    ensures l.x - l.speed * gameSpeed <= -width ==> r.x == 0.0
    ensures l.x - l.speed * gameSpeed > -width ==> r.x == l.x - l.speed * gameSpeed
  {
    var x := l.x - l.speed * gameSpeed;
    if x <= -width then l.(x := 0.0) else l.(x := x)
  }

  class BackgroundManager {
    const width: real
    const height: real
    var layers: seq<Layer>

    ghost predicate Valid()
      reads this
    {
      width > 0.0
    }

    constructor (canvasWidth: real, canvasHeight: real)
      requires canvasWidth > 0.0
      ensures Valid() && width == canvasWidth && height == canvasHeight
      ensures layers == INITIAL_LAYERS
    {
      width := canvasWidth;
      height := canvasHeight;
      layers := INITIAL_LAYERS;
    }

    /** `update(gameSpeed)`: scrolls each layer in place; afterwards every
        layer is less than one width to the left, and no layer is added or
        lost. */
    method Update(gameSpeed: real)
      requires Valid()
      modifies this
      ensures Valid()
      ensures |layers| == |old(layers)|
      ensures forall i :: 0 <= i < |layers| ==> layers[i] == ScrollLayer(old(layers)[i], width, gameSpeed)
      ensures forall i :: 0 <= i < |layers| ==> layers[i].x > -width
    {
      var i := 0;
      while i < |layers|
        invariant 0 <= i <= |layers| && |layers| == |old(layers)|
        invariant forall k :: 0 <= k < i ==> layers[k] == ScrollLayer(old(layers)[k], width, gameSpeed)
        invariant forall k :: i <= k < |layers| ==> layers[k] == old(layers)[k]
      {
        var l := layers[i];
        var x := l.x - l.speed * gameSpeed;
        if x <= -width {
          x := 0.0;
        }
        layers := layers[i := l.(x := x)];
        i := i + 1;
      }
    }
  }
}
