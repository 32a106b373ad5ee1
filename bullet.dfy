/**
 * A projectile (src/bullet.py): a 32x32 rect centred on a float position,
 * a velocity, the `ativo`/`delay` pair, a lifetime, and a trail of at most
 * eight past centres. Drawing and the random trail effect are not modelled.
 */
module Bullets {
  import opened Geometry

  const VELOCIDADE_TIRO: real := 500.0
  /** TAMANHO_TIRO is 8 (the later definition in src/config.py); the surface is four times that. */
  const TAMANHO_TIRO: int := 8
  const LADO_TIRO: int := TAMANHO_TIRO * 4
  const TEMPO_VIDA_MAXIMO: real := 3.0
  const MAX_RASTRO: int := 8
  const MARGEM_DISTANTE: int := 200

  /** The rect of the given size whose centre is (cx, cy), as assigning Rect.center does. */
  function CenteredAt(cx: int, cy: int, w: int, h: int): (r: Rect)
    ensures w >= 0 && h >= 0 ==> r.x + w / 2 == cx && r.y + h / 2 == cy && r.w == w && r.h == h
  {
    Rect(cx - w / 2, cy - h / 2, w, h)
  }

  function CenterX(r: Rect): int { r.x + r.w / 2 }
  function CenterY(r: Rect): int { r.y + r.h / 2 }

  /** fora_da_tela: the rect lies entirely beyond one edge of the screen. */
  predicate OffScreen(r: Rect)
  {
    r.Right() < 0 || r.x > SCREEN_WIDTH || r.Bottom() < 0 || r.y > SCREEN_HEIGHT
  }

  /** fora_da_tela_distante: the same test with a 200-pixel margin around the screen. */
  predicate FarOffScreen(r: Rect)
  {
    r.Right() < -MARGEM_DISTANTE || r.x > SCREEN_WIDTH + MARGEM_DISTANTE ||
    r.Bottom() < -MARGEM_DISTANTE || r.y > SCREEN_HEIGHT + MARGEM_DISTANTE
  }

  /** Being far off screen implies being off screen; the converse fails inside the margin. */
  lemma FarOffScreenIsOffScreen(r: Rect)
    ensures FarOffScreen(r) ==> OffScreen(r)
    ensures OffScreen(Rect(SCREEN_WIDTH + 1, 0, LADO_TIRO, LADO_TIRO)) &&
            !FarOffScreen(Rect(SCREEN_WIDTH + 1, 0, LADO_TIRO, LADO_TIRO))
  {
  }

  /** Index of the first obstacle the rect collides with, or |obstacles| when there is none. */
  function FirstObstacle(r: Rect, obstacles: seq<Rect>): (k: nat)
    ensures k <= |obstacles|
    ensures k < |obstacles| ==> Overlaps(r, obstacles[k])
    ensures forall j :: 0 <= j < k ==> !Overlaps(r, obstacles[j])
  {
    if obstacles == [] then 0
    else if Overlaps(r, obstacles[0]) then 0
    else 1 + FirstObstacle(r, obstacles[1..])
  }

  class Bullet {
    var rect: Rect
    var posX: real
    var posY: real
    var velX: real
    var velY: real
    var deInimigo: bool
    var dano: int
    var delay: real
    var ativo: bool
    var tipoTiro: string
    /** posicoes_anteriores: past rect centres, oldest first. */
    var trail: seq<(int, int)>
    /** tempo_vida_atual */
    var lifetime: real
    /** The `velocidade` attribute the pool writes; nothing in the bullet reads it. */
    var velocidade: real
    /** pygame's Sprite.alive(): the bullet still belongs to a sprite group; kill() clears it. */
    var alive: bool

    predicate Valid()
      reads this
    {
      |trail| <= MAX_RASTRO && rect.w == LADO_TIRO && rect.h == LADO_TIRO
    }

    /** Bullet.__init__; a new sprite belongs to no group yet. */
    constructor (x: real, y: real, dx: real, dy: real, deInimigo: bool, dano: int,
                 velocidadeMult: real, delay: real, tipoTiro: string)
      ensures Valid()
      ensures rect == CenteredAt(Trunc(x), Trunc(y), LADO_TIRO, LADO_TIRO)
      ensures posX == x && posY == y
      ensures velX == dx * VELOCIDADE_TIRO * velocidadeMult && velY == dy * VELOCIDADE_TIRO * velocidadeMult
      ensures this.deInimigo == deInimigo && this.dano == dano && this.delay == delay
      ensures this.tipoTiro == tipoTiro
      ensures ativo == (delay <= 0.0)
      ensures trail == [] && lifetime == 0.0 && !alive
    {
      rect := CenteredAt(Trunc(x), Trunc(y), LADO_TIRO, LADO_TIRO);
      posX, posY := x, y;
      velX := dx * VELOCIDADE_TIRO * velocidadeMult;
      velY := dy * VELOCIDADE_TIRO * velocidadeMult;
      this.deInimigo := deInimigo;
      this.dano := dano;
      this.delay := delay;
      ativo := delay <= 0.0;
      this.tipoTiro := tipoTiro;
      trail := [];
      lifetime := 0.0;
      velocidade := 0.0;
      alive := false;
    }

    /** pygame's Sprite.kill(): leaves every group; `ativo` is untouched. */
    method Kill()
      modifies this`alive
      ensures !alive
    {
      alive := false;
    }

    /** desativar: clears `ativo` and nothing else. */
    method Desativar()
      modifies this`ativo
      ensures !ativo
    {
      ativo := false;
    }

    /** The attributes get_bullet assigns to the bullet it hands out, which also becomes active. */
    method Configure(dano: int, velocidade: real, deInimigo: bool, tipoTiro: string)
      modifies this`dano, this`velocidade, this`deInimigo, this`tipoTiro, this`ativo
      ensures this.dano == dano && this.velocidade == velocidade && this.deInimigo == deInimigo
      ensures this.tipoTiro == tipoTiro && ativo
    {
      this.dano := dano;
      this.velocidade := velocidade;
      this.deInimigo := deInimigo;
      this.tipoTiro := tipoTiro;
      ativo := true;
    }

    predicate ForaDaTela()
      reads this
    {
      OffScreen(rect)
    }

    predicate ForaDaTelaDistante()
      reads this
    {
      FarOffScreen(rect)
    }

    /** The position and velocity part of reset. */
    method Reposicionar(x: real, y: real, dx: real, dy: real, velocidadeMult: real)
      modifies this`rect, this`posX, this`posY, this`velX, this`velY
      ensures rect == CenteredAt(Trunc(x), Trunc(y), LADO_TIRO, LADO_TIRO)
      ensures posX == x && posY == y
      ensures velX == dx * VELOCIDADE_TIRO * velocidadeMult && velY == dy * VELOCIDADE_TIRO * velocidadeMult
    {
      rect := CenteredAt(Trunc(x), Trunc(y), LADO_TIRO, LADO_TIRO);
      posX, posY := x, y;
      velX := dx * VELOCIDADE_TIRO * velocidadeMult;
      velY := dy * VELOCIDADE_TIRO * velocidadeMult;
    }

    /** The life-cycle part of reset: active, no delay, zero lifetime, empty trail. */
    method Reiniciar()
      modifies this`ativo, this`delay, this`lifetime, this`trail
      ensures ativo && delay == 0.0 && lifetime == 0.0 && trail == []
    {
      ativo := true;
      delay := 0.0;
      lifetime := 0.0;
      trail := [];
    }

    /**
     * reset, for reuse by the pool: new position and velocity, active,
     * no delay, zero lifetime, empty trail; the sprite groups are untouched.
     * The rect keeps the size of the bullet's fixed 32x32 image.
     */
    method Reset(x: real, y: real, dx: real, dy: real, velocidadeMult: real, dano: int,
                 deInimigo: bool, tipoTiro: string)
      modifies this`rect, this`posX, this`posY, this`velX, this`velY, this`dano, this`deInimigo, this`tipoTiro
      modifies this`ativo, this`delay, this`lifetime, this`trail
      ensures Valid()
      ensures rect == CenteredAt(Trunc(x), Trunc(y), LADO_TIRO, LADO_TIRO)
      ensures posX == x && posY == y
      ensures velX == dx * VELOCIDADE_TIRO * velocidadeMult && velY == dy * VELOCIDADE_TIRO * velocidadeMult
      ensures this.dano == dano && this.deInimigo == deInimigo && this.tipoTiro == tipoTiro
      ensures ativo && delay == 0.0 && lifetime == 0.0 && trail == []
      ensures alive == old(alive) && velocidade == old(velocidade)
    {
      Reposicionar(x, y, dx, dy, velocidadeMult);
      this.dano, this.deInimigo, this.tipoTiro := dano, deInimigo, tipoTiro;
      Reiniciar();
    }

    /**
     * update(dt, obstaculos), state only. A pending delay only counts down
     * (activating the bullet once it reaches zero); an inactive bullet is
     * left alone; otherwise the lifetime grows, and a bullet at or past
     * three seconds is killed without moving. A moving bullet records its new
     * centre in the trail (dropping the oldest past eight) and is killed when
     * it is far off screen or collides with an obstacle.
     */
    method Update(dt: real, obstacles: seq<Rect>)
      requires Valid()
      modifies this
      ensures Valid()
      ensures velX == old(velX) && velY == old(velY) && dano == old(dano) && deInimigo == old(deInimigo)
      ensures tipoTiro == old(tipoTiro) && velocidade == old(velocidade)
      ensures old(delay) > 0.0 ==>
        delay == old(delay) - dt && ativo == (old(ativo) || delay <= 0.0) &&
        rect == old(rect) && posX == old(posX) && posY == old(posY) &&
        trail == old(trail) && lifetime == old(lifetime) && alive == old(alive)
      ensures old(delay) <= 0.0 && !old(ativo) ==>
        delay == old(delay) && !ativo && rect == old(rect) && posX == old(posX) && posY == old(posY) &&
        trail == old(trail) && lifetime == old(lifetime) && alive == old(alive)
      ensures old(delay) <= 0.0 && old(ativo) ==>
        delay == old(delay) && ativo && lifetime == old(lifetime) + dt
      ensures old(delay) <= 0.0 && old(ativo) && lifetime >= TEMPO_VIDA_MAXIMO ==>
        !alive && rect == old(rect) && posX == old(posX) && posY == old(posY) && trail == old(trail)
      ensures old(delay) <= 0.0 && old(ativo) && lifetime < TEMPO_VIDA_MAXIMO ==>
        posX == old(posX) + old(velX) * dt && posY == old(posY) + old(velY) * dt &&
        rect == CenteredAt(Trunc(posX), Trunc(posY), LADO_TIRO, LADO_TIRO) &&
        trail != [] && trail[|trail| - 1] == (CenterX(rect), CenterY(rect)) &&
        (|old(trail)| < MAX_RASTRO ==> trail == old(trail) + [trail[|trail| - 1]]) &&
        (|old(trail)| == MAX_RASTRO ==> trail == old(trail)[1..] + [trail[|trail| - 1]]) &&
        alive == (old(alive) && !FarOffScreen(rect) && FirstObstacle(rect, obstacles) == |obstacles|)
    {
      if delay > 0.0 {
        delay := delay - dt;
        if delay <= 0.0 {
          ativo := true;
        }
        return;
      }
      if !ativo {
        return;
      }
      lifetime := lifetime + dt;
      if lifetime >= TEMPO_VIDA_MAXIMO {
        Kill();
        return;
      }
      Move(dt, obstacles);
    }

    /** The moving half of update: step, trail, then the far-off-screen and obstacle kills. */
    method Move(dt: real, obstacles: seq<Rect>)
      requires Valid()
      modifies this`posX, this`posY, this`rect, this`trail, this`alive
      ensures Valid()
      ensures posX == old(posX) + velX * dt && posY == old(posY) + velY * dt
      ensures rect == CenteredAt(Trunc(posX), Trunc(posY), LADO_TIRO, LADO_TIRO)
      ensures trail != [] && trail[|trail| - 1] == (CenterX(rect), CenterY(rect))
      ensures |old(trail)| < MAX_RASTRO ==> trail == old(trail) + [trail[|trail| - 1]]
      ensures |old(trail)| == MAX_RASTRO ==> trail == old(trail)[1..] + [trail[|trail| - 1]]
      ensures alive == (old(alive) && !FarOffScreen(rect) && FirstObstacle(rect, obstacles) == |obstacles|)
    {
      Step(dt);
      Collide(obstacles);
    }

    /** The position advances by velocity times dt, the rect is re-centred and the new centre joins the trail. */
    method Step(dt: real)
      requires Valid()
      modifies this`posX, this`posY, this`rect, this`trail
      ensures Valid()
      ensures posX == old(posX) + velX * dt && posY == old(posY) + velY * dt
      ensures rect == CenteredAt(Trunc(posX), Trunc(posY), LADO_TIRO, LADO_TIRO)
      ensures trail != [] && trail[|trail| - 1] == (CenterX(rect), CenterY(rect))
      ensures |old(trail)| < MAX_RASTRO ==> trail == old(trail) + [trail[|trail| - 1]]
      ensures |old(trail)| == MAX_RASTRO ==> trail == old(trail)[1..] + [trail[|trail| - 1]]
    {
      posX := posX + velX * dt;
      posY := posY + velY * dt;
      rect := rect.(x := Trunc(posX) - rect.w / 2);
      rect := rect.(y := Trunc(posY) - rect.h / 2);
      trail := trail + [(CenterX(rect), CenterY(rect))];
      if |trail| > MAX_RASTRO {
        trail := trail[1..];
      }
    }

    /** The bullet is killed when it is far off screen or collides with one of the obstacles. */
    method Collide(obstacles: seq<Rect>)
      modifies this`alive
      ensures alive == (old(alive) && !FarOffScreen(rect) && FirstObstacle(rect, obstacles) == |obstacles|)
    {
      if FarOffScreen(rect) {
        Kill();
      }
      var i := 0;
      while i < |obstacles|
        invariant 0 <= i <= |obstacles|
        invariant forall j :: 0 <= j < i ==> !Overlaps(rect, obstacles[j])
        invariant alive == (old(alive) && !FarOffScreen(rect))
      {
        if Overlaps(rect, obstacles[i]) {
          Kill();
          break;
        }
        i := i + 1;
      }
      FirstObstacleAt(rect, obstacles, i);
    }
  }

  /** FirstObstacle is the first index of a colliding obstacle. */
  lemma FirstObstacleAt(r: Rect, obstacles: seq<Rect>, i: int)
    requires 0 <= i <= |obstacles|
    requires forall j :: 0 <= j < i ==> !Overlaps(r, obstacles[j])
    requires i < |obstacles| ==> Overlaps(r, obstacles[i])
    ensures FirstObstacle(r, obstacles) == i
  {
  }
}
