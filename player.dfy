/**
 * src/player.py: the Brawler the user controls. Its health, its timed
 * power-ups, the one-shot modifiers its abilities leave in
 * `efeitos_especiais`, the cooldowns, and the movement that clamps it to the
 * screen and stops it at obstacles. Input, sprites, sounds, visual effects
 * and the animation calls are not modelled; the normalised aim direction is
 * an input, because it comes from `math.sqrt`.
 */
module Players {
  import opened Geometry
  import opened Bullets
  import opened Characters
  import Super

  const DURACAO_POWER_UP: real := 10.0
  const TAMANHO_JOGADOR: int := 20
  /** What the 'vida' power-up heals. */
  const CURA_POWER_UP: int := 50
  /** The cooldown between the shots of a burst. */
  const INTERVALO_RAJADA: real := 0.1
  /** How far in front of the player's centre a shot starts. */
  const DISTANCIA_CANO: real := 30.0
  /** How long the damage flag stays up after a hit. */
  const DURACAO_DANO: real := 0.5

  /** One entry of power_ups_ativos. */
  datatype PowerUp = PowerUp(tipo: string, multiplicador: real, tempoRestante: real)

  /** The projectile atirar creates: start point, direction, damage and whether it is a Super Shell. */
  datatype Disparo = Disparo(x: real, y: real, dx: real, dy: real, dano: int, especial: bool)

  /** What obter_info_habilidade reports to the UI. */
  datatype InfoHabilidade = InfoHabilidade(nome: string, descricao: string, pronta: bool,
                                           cooldownAtual: real, cooldownMax: real)

  /** The player's rect and its float centre. */
  datatype Posicao = Posicao(rect: Rect, x: real, y: real)

  // ---------------------------------------------------------------- effects

  /** A counter in efeitos_especiais is pending when its key is there with a positive value. */
  predicate Pendente(efeitos: map<string, real>, chave: string)
  {
    chave in efeitos && efeitos[chave] > 0.0
  }

  /** One use of a pending counter: it drops by one, and the key is deleted once it reaches 0. */
  function Consumir(efeitos: map<string, real>, chave: string): (r: map<string, real>)
    ensures forall k :: k != chave ==> (k in r <==> k in efeitos)
    ensures forall k :: k != chave && k in r ==> r[k] == efeitos[k]
    ensures !Pendente(efeitos, chave) ==> r == efeitos
    ensures Pendente(efeitos, chave) ==>
      (chave in r <==> efeitos[chave] > 1.0) && (chave in r ==> r[chave] == efeitos[chave] - 1.0)
  {
    if Pendente(efeitos, chave) then
      if efeitos[chave] - 1.0 <= 0.0 then efeitos - {chave} else efeitos[chave := efeitos[chave] - 1.0]
    else efeitos
  }

  /** How many of `tiros` consecutive shots find the counter pending (each shot uses it once). */
  function Pendentes(efeitos: map<string, real>, chave: string, tiros: nat): nat
  {
    if tiros == 0 then 0
    else (if Pendente(efeitos, chave) then 1 else 0) + Pendentes(Consumir(efeitos, chave), chave, tiros - 1)
  }

  /**
   * A counter of n, as the abilities leave it (super_shell 1, rajada_balas
   * 6), is pending for exactly the next n shots and no more.
   */
  lemma {:induction false} PendentesContador(efeitos: map<string, real>, chave: string, n: nat, tiros: nat)
    requires (chave in efeitos && efeitos[chave] == n as real) || (chave !in efeitos && n == 0)
    ensures Pendentes(efeitos, chave, tiros) == Min(n, tiros)
  {
    if tiros > 0 {
      var e := Consumir(efeitos, chave);
      if n == 0 {
        PendentesContador(e, chave, 0, tiros - 1);
      } else {
        PendentesContador(e, chave, n - 1, tiros - 1);
      }
    }
  }

  /** One step of a timer in efeitos_especiais: it runs down and the key is deleted at 0. */
  function Decorrer(efeitos: map<string, real>, chave: string, dt: real): (r: map<string, real>)
    ensures forall k :: k != chave ==> (k in r <==> k in efeitos)
    ensures forall k :: k != chave && k in r ==> r[k] == efeitos[k]
    ensures chave in r <==> chave in efeitos && efeitos[chave] - dt > 0.0
    ensures chave in r ==> r[chave] == efeitos[chave] - dt
  {
    if chave !in efeitos then efeitos
    else if efeitos[chave] - dt <= 0.0 then efeitos - {chave}
    else efeitos[chave := efeitos[chave] - dt]
  }

  // -------------------------------------------------------------- power-ups

  /** The entry for a timed power-up, if the type has one ('vida' only heals). */
  function EntradaPowerUp(tipo: string): (r: Option<PowerUp>)
    ensures r.Some? <==> tipo == "velocidade" || tipo == "tiro_rapido"
    ensures r.Some? ==> r.value.tipo == tipo && r.value.tempoRestante == DURACAO_POWER_UP
  {
    if tipo == "velocidade" then Some(PowerUp("velocidade", 1.5, DURACAO_POWER_UP))
    else if tipo == "tiro_rapido" then Some(PowerUp("tiro_rapido", 0.5, DURACAO_POWER_UP))
    else None
  }

  /** The entry after a frame of dt. */
  function Passar(p: PowerUp, dt: real): PowerUp
  {
    p.(tempoRestante := p.tempoRestante - dt)
  }

  /** The entries still running after a frame of dt, each with its time lowered, in their order. */
  function Restantes(ps: seq<PowerUp>, dt: real): (r: seq<PowerUp>)
    ensures |r| <= |ps|
    ensures forall i :: 0 <= i < |r| ==> r[i].tempoRestante > 0.0
  {
    if ps == [] then []
    else
      var q := Passar(ps[|ps| - 1], dt);
      Restantes(ps[..|ps| - 1], dt) + (if q.tempoRestante > 0.0 then [q] else [])
  }

  /** Some entry of that type runs out in this frame. */
  predicate Expirou(ps: seq<PowerUp>, dt: real, tipo: string)
  {
    exists i :: 0 <= i < |ps| && ps[i].tipo == tipo && ps[i].tempoRestante - dt <= 0.0
  }

  /** Every entry that still has time left after the frame is kept, its time lowered by dt. */
  lemma {:induction false} RestantesMantem(ps: seq<PowerUp>, dt: real, i: int)
    requires 0 <= i < |ps| && ps[i].tempoRestante - dt > 0.0
    ensures Passar(ps[i], dt) in Restantes(ps, dt)
  {
    if i < |ps| - 1 {
      RestantesMantem(ps[..|ps| - 1], dt, i);
    }
  }

  /** Every kept entry is some entry of the list, lowered by dt, that still had time left. */
  lemma {:induction false} RestantesOrigem(ps: seq<PowerUp>, dt: real, p: PowerUp)
    requires p in Restantes(ps, dt)
    ensures exists i :: 0 <= i < |ps| && p == Passar(ps[i], dt) && p.tempoRestante > 0.0
  {
    var antes := ps[..|ps| - 1];
    if p in Restantes(antes, dt) {
      RestantesOrigem(antes, dt, p);
      var i :| 0 <= i < |antes| && p == Passar(antes[i], dt) && p.tempoRestante > 0.0;
      assert ps[i] == antes[i];
    } else {
      assert p == Passar(ps[|ps| - 1], dt);
    }
  }

  /**
   * The stat is reset as soon as one entry of its type runs out, even when
   * another entry of that type is still running.
   */
  lemma ResetComOutroAtivo()
    ensures var ps := [PowerUp("velocidade", 1.5, 1.0), PowerUp("velocidade", 1.5, DURACAO_POWER_UP)];
      Expirou(ps, 1.0, "velocidade") && Restantes(ps, 1.0) == [PowerUp("velocidade", 1.5, 9.0)]
  {
    var ps := [PowerUp("velocidade", 1.5, 1.0), PowerUp("velocidade", 1.5, DURACAO_POWER_UP)];
    assert ps[..1] == [ps[0]] && [ps[0]][..0] == [];
  }

  // --------------------------------------------------------------- movement

  /** max(meio, min(v, limite - meio)): the centre coordinate that keeps a half-size on screen. */
  function Limitar(v: real, meio: int, limite: int): (r: real)
    ensures meio <= limite - meio ==> meio as real <= r <= (limite - meio) as real
    ensures meio as real <= v <= (limite - meio) as real ==> r == v
  {
    MaxR(meio as real, MinR(v, (limite - meio) as real))
  }

  /**
   * The horizontal half of mover: the centre moves to the clamped target;
   * on the first obstacle it then overlaps, the rect is pushed against that
   * obstacle's near side and the centre follows the rect.
   */
  function PassoX(p: Posicao, dx: real, obstaculos: seq<Rect>): (q: Posicao)
    ensures q.rect.w == p.rect.w && q.rect.h == p.rect.h && q.rect.y == p.rect.y && q.y == p.y
  {
    var livre := DestinoX(p, dx);
    var r := livre.rect;
    var k := FirstObstacle(r, obstaculos);
    if k == |obstaculos| then livre
    else
      var r2 := if dx > 0.0 then r.(x := obstaculos[k].x - r.w) else r.(x := obstaculos[k].Right());
      Posicao(r2, CenterX(r2) as real, p.y)
  }

  /** Where the horizontal step goes before obstacles: the clamped centre and the rect around it. */
  function DestinoX(p: Posicao, dx: real): (q: Posicao)
    ensures q.rect == p.rect.(x := q.rect.x) && q.y == p.y
    ensures q.rect.x == Trunc(q.x) - p.rect.w / 2
  {
    var meio := p.rect.w / 2;
    var nx := Limitar(p.x + dx, meio, SCREEN_WIDTH);
    Posicao(p.rect.(x := Trunc(nx) - meio), nx, p.y)
  }

  /** The vertical half of mover, the same on the other axis. */
  function PassoY(p: Posicao, dy: real, obstaculos: seq<Rect>): (q: Posicao)
    ensures q.rect.w == p.rect.w && q.rect.h == p.rect.h && q.rect.x == p.rect.x && q.x == p.x
  {
    var livre := DestinoY(p, dy);
    var r := livre.rect;
    var k := FirstObstacle(r, obstaculos);
    if k == |obstaculos| then livre
    else
      var r2 := if dy > 0.0 then r.(y := obstaculos[k].y - r.h) else r.(y := obstaculos[k].Bottom());
      Posicao(r2, p.x, CenterY(r2) as real)
  }

  /** Where the vertical step goes before obstacles. */
  function DestinoY(p: Posicao, dy: real): (q: Posicao)
    ensures q.rect == p.rect.(y := q.rect.y) && q.x == p.x
    ensures q.rect.y == Trunc(q.y) - p.rect.h / 2
  {
    var meio := p.rect.h / 2;
    var ny := Limitar(p.y + dy, meio, SCREEN_HEIGHT);
    Posicao(p.rect.(y := Trunc(ny) - meio), p.x, ny)
  }

  /** The rect lies on the screen. */
  predicate NaTela(r: Rect)
  {
    0 <= r.x && r.Right() <= SCREEN_WIDTH && 0 <= r.y && r.Bottom() <= SCREEN_HEIGHT
  }

  /** The final safety check of mover: a rect past an edge is put back against it. */
  function Limites(p: Posicao): (q: Posicao)
    ensures q.rect.w == p.rect.w && q.rect.h == p.rect.h
    ensures 0 < p.rect.w <= SCREEN_WIDTH && 0 < p.rect.h <= SCREEN_HEIGHT ==> NaTela(q.rect)
    ensures NaTela(p.rect) ==> q == p
  {
    var r := p.rect;
    var px := if r.x < 0 then Posicao(r.(x := 0), CenterX(r.(x := 0)) as real, p.y)
              else if r.Right() > SCREEN_WIDTH then Posicao(r.(x := SCREEN_WIDTH - r.w), CenterX(r.(x := SCREEN_WIDTH - r.w)) as real, p.y)
              else p;
    var s := px.rect;
    if s.y < 0 then Posicao(s.(y := 0), px.x, CenterY(s.(y := 0)) as real)
    else if s.Bottom() > SCREEN_HEIGHT then Posicao(s.(y := SCREEN_HEIGHT - s.h), px.x, CenterY(s.(y := SCREEN_HEIGHT - s.h)) as real)
    else px
  }

  /** mover as a whole. */
  function Mover(p: Posicao, dx: real, dy: real, obstaculos: seq<Rect>): Posicao
  {
    Limites(PassoY(PassoX(p, dx, obstaculos), dy, obstaculos))
  }

  /** Whatever the step and the obstacles, a rect that fits the screen ends up on it. */
  lemma MoverNaTela(p: Posicao, dx: real, dy: real, obstaculos: seq<Rect>)
    requires 0 < p.rect.w <= SCREEN_WIDTH && 0 < p.rect.h <= SCREEN_HEIGHT
    ensures var q := Mover(p, dx, dy, obstaculos);
      NaTela(q.rect) && q.rect.w == p.rect.w && q.rect.h == p.rect.h
  {
  }

  /** A horizontal step that meets no obstacle ends at the clamped target. */
  lemma PassoXLivre(p: Posicao, dx: real, obstaculos: seq<Rect>, r: Rect)
    requires r == p.rect.(x := Trunc(Limitar(p.x + dx, p.rect.w / 2, SCREEN_WIDTH)) - p.rect.w / 2)
    requires forall k :: 0 <= k < |obstaculos| ==> !Overlaps(r, obstaculos[k])
    ensures PassoX(p, dx, obstaculos) == Posicao(r, Limitar(p.x + dx, p.rect.w / 2, SCREEN_WIDTH), p.y)
  {
    FirstObstacleAt(r, obstaculos, |obstaculos|);
  }

  /** A vertical step that meets no obstacle ends at the clamped target. */
  lemma PassoYLivre(p: Posicao, dy: real, obstaculos: seq<Rect>, r: Rect)
    requires r == p.rect.(y := Trunc(Limitar(p.y + dy, p.rect.h / 2, SCREEN_HEIGHT)) - p.rect.h / 2)
    requires forall k :: 0 <= k < |obstaculos| ==> !Overlaps(r, obstaculos[k])
    ensures PassoY(p, dy, obstaculos) == Posicao(r, p.x, Limitar(p.y + dy, p.rect.h / 2, SCREEN_HEIGHT))
  {
    FirstObstacleAt(r, obstaculos, |obstaculos|);
  }

  /**
   * A horizontal step whose target overlaps obstacle k first ends pushed
   * against that obstacle's near side, clear of it, with the centre on the
   * pushed rect.
   */
  lemma PassoXBloqueado(p: Posicao, dx: real, obstaculos: seq<Rect>, r: Rect, k: int)
    requires r == p.rect.(x := Trunc(Limitar(p.x + dx, p.rect.w / 2, SCREEN_WIDTH)) - p.rect.w / 2)
    requires 0 <= k < |obstaculos| && Overlaps(r, obstaculos[k])
    requires forall j :: 0 <= j < k ==> !Overlaps(r, obstaculos[j])
    requires p.rect.Positive() && obstaculos[k].Positive()
    ensures var q := PassoX(p, dx, obstaculos);
      !Overlaps(q.rect, obstaculos[k]) &&
      (if dx > 0.0 then q.rect.Right() == obstaculos[k].x else q.rect.x == obstaculos[k].Right()) &&
      q.x == CenterX(q.rect) as real
  {
    FirstObstacleAt(r, obstaculos, k);
    EmpurrarX(r, obstaculos[k], dx);
  }

  /** The same on the vertical axis. */
  lemma PassoYBloqueado(p: Posicao, dy: real, obstaculos: seq<Rect>, r: Rect, k: int)
    requires r == p.rect.(y := Trunc(Limitar(p.y + dy, p.rect.h / 2, SCREEN_HEIGHT)) - p.rect.h / 2)
    requires 0 <= k < |obstaculos| && Overlaps(r, obstaculos[k])
    requires forall j :: 0 <= j < k ==> !Overlaps(r, obstaculos[j])
    requires p.rect.Positive() && obstaculos[k].Positive()
    ensures var q := PassoY(p, dy, obstaculos);
      !Overlaps(q.rect, obstaculos[k]) &&
      (if dy > 0.0 then q.rect.Bottom() == obstaculos[k].y else q.rect.y == obstaculos[k].Bottom()) &&
      q.y == CenterY(q.rect) as real
  {
    FirstObstacleAt(r, obstaculos, k);
    EmpurrarY(r, obstaculos[k], dy);
  }

  /**
   * With nothing in the way of either step, a player of even size goes
   * exactly to the clamped target: its centre is there and its rect is
   * centred on the truncated centre.
   */
  lemma MoverLivre(p: Posicao, dx: real, dy: real, obstaculos: seq<Rect>, r1: Rect, r2: Rect)
    requires 0 < p.rect.w <= SCREEN_WIDTH && 0 < p.rect.h <= SCREEN_HEIGHT && p.rect.w % 2 == 0 && p.rect.h % 2 == 0
    requires r1 == p.rect.(x := Trunc(Limitar(p.x + dx, p.rect.w / 2, SCREEN_WIDTH)) - p.rect.w / 2)
    requires r2 == r1.(y := Trunc(Limitar(p.y + dy, p.rect.h / 2, SCREEN_HEIGHT)) - p.rect.h / 2)
    requires forall k :: 0 <= k < |obstaculos| ==> !Overlaps(r1, obstaculos[k]) && !Overlaps(r2, obstaculos[k])
    ensures var q := Mover(p, dx, dy, obstaculos);
      q.x == Limitar(p.x + dx, p.rect.w / 2, SCREEN_WIDTH) &&
      q.y == Limitar(p.y + dy, p.rect.h / 2, SCREEN_HEIGHT) &&
      q.rect == CenteredAt(Trunc(q.x), Trunc(q.y), p.rect.w, p.rect.h)
  {
    var nx := Limitar(p.x + dx, p.rect.w / 2, SCREEN_WIDTH);
    var ny := Limitar(p.y + dy, p.rect.h / 2, SCREEN_HEIGHT);
    PassoXLivre(p, dx, obstaculos, r1);
    var p1 := Posicao(r1, nx, p.y);
    PassoYLivre(p1, dy, obstaculos, r2);
    LimitarTrunc(nx, p.rect.w / 2, SCREEN_WIDTH);
    LimitarTrunc(ny, p.rect.h / 2, SCREEN_HEIGHT);
    assert NaTela(r2);
  }

  /** The truncated clamped centre still keeps the half-size inside the limit. */
  lemma LimitarTrunc(v: real, meio: int, limite: int)
    requires 0 <= meio && meio <= limite - meio
    requires meio as real <= v <= (limite - meio) as real
    ensures meio <= Trunc(v) <= limite - meio
  {
  }

  /**
   * The rect pushed against the near side of the obstacle it hit (its left
   * side when moving right, else its right side) only touches it, so it no
   * longer collides with it.
   */
  lemma EmpurrarX(r: Rect, o: Rect, dx: real)
    requires r.Positive() && o.Positive()
    ensures var e := if dx > 0.0 then r.(x := o.x - r.w) else r.(x := o.Right());
      !Overlaps(e, o) && (if dx > 0.0 then e.Right() == o.x else e.x == o.Right())
  {
    var e := if dx > 0.0 then r.(x := o.x - r.w) else r.(x := o.Right());
    OverlapsPositive(e, o);
  }

  /** The same on the vertical axis. */
  lemma EmpurrarY(r: Rect, o: Rect, dy: real)
    requires r.Positive() && o.Positive()
    ensures var e := if dy > 0.0 then r.(y := o.y - r.h) else r.(y := o.Bottom());
      !Overlaps(e, o) && (if dy > 0.0 then e.Bottom() == o.y else e.y == o.Bottom())
  {
    var e := if dy > 0.0 then r.(y := o.y - r.h) else r.(y := o.Bottom());
    OverlapsPositive(e, o);
  }

  /** The horizontal half of mover, step by step. */
  method MoverEixoX(p: Posicao, dx: real, obstaculos: seq<Rect>) returns (q: Posicao)
    ensures q == PassoX(p, dx, obstaculos)
  {
    var livre := DestinoX(p, dx);
    var r := livre.rect;
    var k := PrimeiroObstaculo(r, obstaculos);
    if k == |obstaculos| {
      return livre;
    }
    var r2: Rect;
    if dx > 0.0 {
      r2 := r.(x := obstaculos[k].x - r.w);
    } else {
      r2 := r.(x := obstaculos[k].Right());
    }
    q := Posicao(r2, CenterX(r2) as real, p.y);
  }


  /** The vertical half of mover, step by step. */
  method MoverEixoY(p: Posicao, dy: real, obstaculos: seq<Rect>) returns (q: Posicao)
    ensures q == PassoY(p, dy, obstaculos)
  {
    var livre := DestinoY(p, dy);
    var r := livre.rect;
    var k := PrimeiroObstaculo(r, obstaculos);
    if k == |obstaculos| {
      return livre;
    }
    var r2: Rect;
    if dy > 0.0 {
      r2 := r.(y := obstaculos[k].y - r.h);
    } else {
      r2 := r.(y := obstaculos[k].Bottom());
    }
    q := Posicao(r2, p.x, CenterY(r2) as real);
  }


  /** The final safety check of mover, step by step. */
  method AjustarTela(p: Posicao) returns (q: Posicao)
    ensures q == Limites(p)
  {
    q := p;
    if q.rect.x < 0 {
      var r := q.rect.(x := 0);
      q := Posicao(r, CenterX(r) as real, q.y);
    } else if q.rect.Right() > SCREEN_WIDTH {
      var r := q.rect.(x := SCREEN_WIDTH - q.rect.w);
      q := Posicao(r, CenterX(r) as real, q.y);
    }
    if q.rect.y < 0 {
      var r := q.rect.(y := 0);
      q := Posicao(r, q.x, CenterY(r) as real);
    } else if q.rect.Bottom() > SCREEN_HEIGHT {
      var r := q.rect.(y := SCREEN_HEIGHT - q.rect.h);
      q := Posicao(r, q.x, CenterY(r) as real);
    }
  }

  /** The first obstacle the rect collides with, as the for/break loops of mover find it. */
  method PrimeiroObstaculo(r: Rect, obstaculos: seq<Rect>) returns (k: nat)
    ensures k == FirstObstacle(r, obstaculos)
  {
    k := 0;
    while k < |obstaculos|
      invariant 0 <= k <= |obstaculos|
      invariant forall j :: 0 <= j < k ==> !Overlaps(r, obstaculos[j])
    {
      if Overlaps(r, obstaculos[k]) {
        break;
      }
      k := k + 1;
    }
    FirstObstacleAt(r, obstaculos, k);
  }

  // ---------------------------------------------------------- the abilities

  /** The part of the player an ability's effect can change. */
  datatype Estado = Estado(efeitos: map<string, real>, velocidade: real, vida: int)

  /** curar: the health rises by the amount but never past the maximum. */
  function Curado(vida: int, quantidade: int, vidaMaxima: int): (v: int)
    ensures v <= vidaMaxima
    ensures vida + quantidade <= vidaMaxima ==> v == vida + quantidade
    ensures vida + quantidade > vidaMaxima ==> v == vidaMaxima
  {
    Min(vida + quantidade, vidaMaxima)
  }

  /**
   * aplicar_efeito_especial: Super Shell arms one doubled shot, the burst
   * arms its shots, the charge arms its timer and multiplies the speed, the
   * melody heals; the bear and the bottles change nothing here.
   */
  function AposEfeito(s: Estado, vidaMaxima: int, e: Resultado): (r: Estado)
    ensures e.SuperShellR? ==> r == s.(efeitos := s.efeitos["super_shell" := 1.0])
    ensures e.RajadaBalasR? ==> r == s.(efeitos := s.efeitos["rajada_balas" := e.quantidade as real])
    ensures e.InvestidaR? ==>
      r == Estado(s.efeitos["investida_tempo" := e.duracao], s.velocidade * e.velocidadeBonus, s.vida)
    ensures e.MelodiaCurativaR? ==> r == s.(vida := Curado(s.vida, e.cura, vidaMaxima))
    ensures e.InvocarUrsoR? || e.ChuvaGarrafasR? ==> r == s
  {
    match e
    case SuperShellR(_, _) => s.(efeitos := s.efeitos["super_shell" := 1.0])
    case RajadaBalasR(q, _) => s.(efeitos := s.efeitos["rajada_balas" := q as real])
    case InvestidaR(bonus, duracao, _) => Estado(s.efeitos["investida_tempo" := duracao], s.velocidade * bonus, s.vida)
    case MelodiaCurativaR(cura, _) => s.(vida := Curado(s.vida, cura, vidaMaxima))
    case _ => s
  }

  /** Shelly's Q ability makes exactly her next shot a doubled one. */
  lemma SuperShellUmTiro(s: Estado, vidaMaxima: int, dano: int, tiros: nat)
    requires tiros >= 1
    ensures Pendentes(AposEfeito(s, vidaMaxima, ResultadoDe(HabSuperShell, dano)).efeitos, "super_shell", tiros) == 1
  {
    PendentesContador(AposEfeito(s, vidaMaxima, ResultadoDe(HabSuperShell, dano)).efeitos, "super_shell", 1, tiros);
  }

  /** Colt's Q ability makes the next six shots (and only those) burst shots. */
  lemma RajadaSeisTiros(s: Estado, vidaMaxima: int, dano: int, tiros: nat)
    ensures Pendentes(AposEfeito(s, vidaMaxima, ResultadoDe(HabRajadaBalas, dano)).efeitos, "rajada_balas", tiros) == Min(6, tiros)
  {
    PendentesContador(AposEfeito(s, vidaMaxima, ResultadoDe(HabRajadaBalas, dano)).efeitos, "rajada_balas", 6, tiros);
  }

  // ------------------------------------------------------------ the ability UI

  /** The name and description obter_info_habilidade shows; its table also has a Jessie, and no Barley or Poco. */
  function TextoHabilidade(nome: string): (t: (string, string))
  {
    if nome == "Shelly" then ("Super Shell", "Disparo devastador com dano duplo")
    else if nome == "Nita" then ("Invocar Urso", "Invoca um urso para ajudar na batalha")
    else if nome == "Colt" then ("Rajada de Balas", "Dispara múltiplas balas em sequência")
    else if nome == "Bull" then ("Investida", "Carga poderosa que atropela inimigos")
    else if nome == "Jessie" then ("Torreta Scrappy", "Constrói uma torreta que atira nos inimigos")
    else TEXTO_PADRAO
  }

  const TEXTO_PADRAO: (string, string) := ("Habilidade Especial", "Habilidade única do personagem")

  /** Of the six Brawlers, exactly Barley and Poco get the generic text. */
  lemma TextoHabilidadePadrao(nome: string)
    requires nome in PERSONAGENS_DISPONIVEIS
    ensures TextoHabilidade(nome) == TEXTO_PADRAO <==> nome == "Barley" || nome == "Poco"
  {
  }

  class Player {
    const personagem: Personagem
    const superSystem: Super.SuperSystem
    var rect: Rect
    var posX: real
    var posY: real
    var vida: int
    const vidaMaxima: int
    var velocidade: real
    const danoBase: int
    var cooldownTiro: real
    const tipoTiro: string
    var ultimoTiro: real
    var powerUpsAtivos: seq<PowerUp>
    var cooldownHabilidade: real
    var efeitosEspeciais: map<string, real>
    var recebeuDanoRecente: bool
    var tempoSemDano: real

    /**
     * The statistics come from the Brawler, the Super system charges at
     * that Brawler's rates, and the rect fits the screen.
     */
    predicate Valid()
      reads this, superSystem
    {
      personagem.Valid() && superSystem.Valid() && superSystem.nome == personagem.nome &&
      vidaMaxima == personagem.vidaMaxima && danoBase == personagem.dano && tipoTiro == personagem.tipoTiro &&
      0 < rect.w <= SCREEN_WIDTH && 0 < rect.h <= SCREEN_HEIGHT
    }

    function Pos(): Posicao
      reads this
    {
      Posicao(rect, posX, posY)
    }

    /** Player.__init__: the named Brawler (Shelly for an unknown name) at full health, centred on (x, y). */
    constructor (x: int, y: int, personagemNome: string)
      ensures Valid() && personagem.FichaAtual() == FichaDe(personagemNome)
      ensures fresh(personagem) && fresh(superSystem)
      ensures rect == CenteredAt(x, y, TAMANHO_JOGADOR, TAMANHO_JOGADOR) && posX == x as real && posY == y as real
      ensures vida == vidaMaxima && velocidade == personagem.velocidade && cooldownTiro == personagem.cooldown
      ensures ultimoTiro == 0.0 && powerUpsAtivos == [] && cooldownHabilidade == 0.0 && efeitosEspeciais == map[]
      ensures !recebeuDanoRecente && tempoSemDano == 0.0
      ensures personagem.cooldownHabilidade == 0.0 && !personagem.ursoAtivo
    {
      var p := new Personagem(personagemNome);
      personagem := p;
      superSystem := new Super.SuperSystem(p.nome);
      rect := CenteredAt(x, y, TAMANHO_JOGADOR, TAMANHO_JOGADOR);
      posX := x as real;
      posY := y as real;
      vida := p.vidaMaxima;
      vidaMaxima := p.vidaMaxima;
      velocidade := p.velocidade;
      danoBase := p.dano;
      cooldownTiro := p.cooldown;
      tipoTiro := p.tipoTiro;
      ultimoTiro := 0.0;
      powerUpsAtivos := [];
      cooldownHabilidade := 0.0;
      efeitosEspeciais := map[];
      recebeuDanoRecente := false;
      tempoSemDano := 0.0;
    }

    /**
     * usar_habilidade_especial: it needs both the player's and the
     * Brawler's cooldowns to have run out (the Brawler's also needs no bear
     * out, for Nita); then the player's cooldown restarts from the Brawler's
     * maximum and the ability's effect is applied.
     */
    method UsarHabilidadeEspecial() returns (usada: bool)
      requires Valid()
      modifies this`cooldownHabilidade, this`efeitosEspeciais, this`velocidade, this`vida
      modifies personagem`cooldownHabilidade, personagem`ursoAtivo
      ensures Valid()
      ensures usada <==> old(cooldownHabilidade) <= 0.0 && old(personagem.cooldownHabilidade) <= 0.0 &&
                         (personagem.habilidade == HabInvocarUrso ==> !old(personagem.ursoAtivo))
      ensures usada ==> cooldownHabilidade == personagem.cooldownHabilidadeMax &&
                        personagem.cooldownHabilidade == personagem.cooldownHabilidadeMax &&
                        Estado(efeitosEspeciais, velocidade, vida) ==
                          AposEfeito(Estado(old(efeitosEspeciais), old(velocidade), old(vida)), vidaMaxima,
                                     ResultadoDe(personagem.habilidade, personagem.dano))
      ensures !usada ==> cooldownHabilidade == old(cooldownHabilidade) && efeitosEspeciais == old(efeitosEspeciais) &&
                         velocidade == old(velocidade) && vida == old(vida) &&
                         personagem.cooldownHabilidade == old(personagem.cooldownHabilidade) &&
                         personagem.ursoAtivo == old(personagem.ursoAtivo)
      ensures personagem.ursoAtivo == (old(personagem.ursoAtivo) || (usada && personagem.habilidade == HabInvocarUrso))
    {
      if cooldownHabilidade <= 0.0 {
        var resultado := personagem.UsarHabilidadeEspecial();
        if resultado.Some? {
          cooldownHabilidade := personagem.cooldownHabilidadeMax;
          AplicarEfeitoEspecial(resultado.value);
          return true;
        }
      }
      return false;
    }


    /** aplicar_efeito_especial on the player. */
    method AplicarEfeitoEspecial(e: Resultado)
      requires Valid()
      modifies this`efeitosEspeciais, this`velocidade, this`vida
      ensures Valid()
      ensures Estado(efeitosEspeciais, velocidade, vida) ==
        AposEfeito(Estado(old(efeitosEspeciais), old(velocidade), old(vida)), vidaMaxima, e)
    {
      match e
      case SuperShellR(_, _) =>
        efeitosEspeciais := efeitosEspeciais["super_shell" := 1.0];
      case RajadaBalasR(q, _) =>
        efeitosEspeciais := efeitosEspeciais["rajada_balas" := q as real];
      case InvestidaR(bonus, duracao, _) =>
        efeitosEspeciais := efeitosEspeciais["investida_tempo" := duracao];
        velocidade := velocidade * bonus;
      case MelodiaCurativaR(cura, _) =>
        Curar(cura);
      case _ =>
    }

    /** curar: health rises by the amount, capped at the maximum. */
    method Curar(quantidade: int)
      modifies this`vida
      ensures vida == Curado(old(vida), quantidade, vidaMaxima)
    {
      vida := Min(vida + quantidade, vidaMaxima);
    }

    /**
     * receber_dano: the health drops by the damage and the hit charges the
     * Super; at 0 or below the health is set to 0 and the player is dead.
     */
    method ReceberDano(dano: int) returns (morreu: bool)
      requires Valid()
      modifies this`vida, this`recebeuDanoRecente, this`tempoSemDano
      modifies superSystem`cargaAtual, superSystem`superDisponivel, superSystem`barraBrilho
      ensures Valid()
      ensures morreu <==> old(vida) - dano <= 0
      ensures vida == (if morreu then 0 else old(vida) - dano)
      ensures recebeuDanoRecente && tempoSemDano == DURACAO_DANO
      ensures old(superSystem.superDisponivel) ==> superSystem.cargaAtual == old(superSystem.cargaAtual) && superSystem.superDisponivel
      ensures !old(superSystem.superDisponivel) ==>
        var c := old(superSystem.cargaAtual) + Super.CargaGanha(dano as real, superSystem.cargaPorHit);
        superSystem.cargaAtual == (if c < superSystem.cargaMaxima then c else superSystem.cargaMaxima) &&
        superSystem.superDisponivel == (c >= superSystem.cargaMaxima)
    {
      vida := vida - dano;
      superSystem.AdicionarCargaHit(dano as real);
      recebeuDanoRecente := true;
      tempoSemDano := DURACAO_DANO;
      if vida <= 0 {
        vida := 0;
        return true;
      }
      return false;
    }

    /**
     * aplicar_power_up: speed and rapid fire add one timed entry and change
     * their stat from the Brawler's base; 'vida' only heals; any other type
     * changes nothing.
     */
    method AplicarPowerUp(tipo: string)
      requires Valid()
      modifies this`powerUpsAtivos, this`velocidade, this`cooldownTiro, this`vida
      ensures Valid()
      ensures EntradaPowerUp(tipo).Some? ==> powerUpsAtivos == old(powerUpsAtivos) + [EntradaPowerUp(tipo).value] && vida == old(vida)
      ensures EntradaPowerUp(tipo).None? ==> powerUpsAtivos == old(powerUpsAtivos)
      ensures velocidade == (if tipo == "velocidade" then Trunc(personagem.velocidade * 1.5) as real else old(velocidade))
      ensures cooldownTiro == (if tipo == "tiro_rapido" then personagem.cooldown * 0.5 else old(cooldownTiro))
      ensures vida == (if tipo == "vida" then Curado(old(vida), CURA_POWER_UP, vidaMaxima) else old(vida))
    {
      if tipo == "velocidade" {
        powerUpsAtivos := powerUpsAtivos + [PowerUp("velocidade", 1.5, DURACAO_POWER_UP)];
        velocidade := Trunc(personagem.velocidade * 1.5) as real;
      } else if tipo == "vida" {
        Curar(CURA_POWER_UP);
      } else if tipo == "tiro_rapido" {
        powerUpsAtivos := powerUpsAtivos + [PowerUp("tiro_rapido", 0.5, DURACAO_POWER_UP)];
        cooldownTiro := personagem.cooldown * 0.5;
      }
    }

    /**
     * atualizar_power_ups: every entry's time drops by dt; the entries that
     * run out are removed and their stat goes back to the Brawler's base,
     * the others stay in order.
     */
    method AtualizarPowerUps(dt: real)
      requires Valid()
      modifies this`powerUpsAtivos, this`velocidade, this`cooldownTiro
      ensures Valid()
      ensures powerUpsAtivos == Restantes(old(powerUpsAtivos), dt)
      ensures velocidade == (if Expirou(old(powerUpsAtivos), dt, "velocidade") then personagem.velocidade else old(velocidade))
      ensures cooldownTiro == (if Expirou(old(powerUpsAtivos), dt, "tiro_rapido") then personagem.cooldown else old(cooldownTiro))
    {
      var mantidos, v, c := VencerPowerUps(powerUpsAtivos, dt, velocidade, cooldownTiro, personagem.velocidade, personagem.cooldown);
      powerUpsAtivos, velocidade, cooldownTiro := mantidos, v, c;
    }

    /**
     * atirar: nothing while dead or on cooldown. Otherwise one shot leaves
     * 30 pixels ahead of the centre in the aimed direction; a pending Super
     * Shell doubles its damage and is used up; a pending burst gives the
     * 0.1 s cooldown and is used up, else the cooldown is cooldown_tiro.
     */
    method Atirar(dirX: real, dirY: real, morto: bool) returns (d: Option<Disparo>)
      requires Valid()
      modifies this`efeitosEspeciais, this`ultimoTiro
      ensures Valid()
      ensures d.None? <==> morto || old(ultimoTiro) > 0.0
      ensures d.None? ==> efeitosEspeciais == old(efeitosEspeciais) && ultimoTiro == old(ultimoTiro)
      ensures d.Some? ==>
        d.value == Disparo(CenterX(rect) as real + dirX * DISTANCIA_CANO, CenterY(rect) as real + dirY * DISTANCIA_CANO,
                           dirX, dirY,
                           if Pendente(old(efeitosEspeciais), "super_shell") then 2 * danoBase else danoBase,
                           Pendente(old(efeitosEspeciais), "super_shell")) &&
        efeitosEspeciais == Consumir(Consumir(old(efeitosEspeciais), "super_shell"), "rajada_balas") &&
        ultimoTiro == (if Pendente(old(efeitosEspeciais), "rajada_balas") then INTERVALO_RAJADA else cooldownTiro)
    {
      if morto || ultimoTiro > 0.0 {
        return None;
      }
      var dano := danoBase;
      var especial := false;
      if Pendente(efeitosEspeciais, "super_shell") {
        dano := dano * 2;
        especial := true;
      }
      efeitosEspeciais := Consumir(efeitosEspeciais, "super_shell");
      d := Some(Disparo(CenterX(rect) as real + dirX * DISTANCIA_CANO, CenterY(rect) as real + dirY * DISTANCIA_CANO,
                        dirX, dirY, dano, especial));
      if Pendente(efeitosEspeciais, "rajada_balas") {
        ultimoTiro := INTERVALO_RAJADA;
      } else {
        ultimoTiro := cooldownTiro;
      }
      efeitosEspeciais := Consumir(efeitosEspeciais, "rajada_balas");
    }

    /**
     * mover: clamped to the screen before moving, stopped at the first
     * obstacle on each axis, then put back on screen by the final check.
     */
    method MoverJogador(dx: real, dy: real, obstaculos: seq<Rect>)
      requires Valid()
      modifies this`rect, this`posX, this`posY
      ensures Valid()
      ensures Pos() == Mover(old(Pos()), dx, dy, obstaculos)
      ensures NaTela(rect)
    {
      var p := MoverEixoX(Pos(), dx, obstaculos);
      p := MoverEixoY(p, dy, obstaculos);
      p := AjustarTela(p);
      rect, posX, posY := p.rect, p.x, p.y;
    }

    /**
     * The timers at the start of update: the shot and ability cooldowns run
     * down while positive, and the damage flag drops when its timer runs out.
     * The Brawler's own ability cooldown is not touched.
     */
    method AtualizarTemporizadores(dt: real)
      modifies this`ultimoTiro, this`cooldownHabilidade, this`tempoSemDano, this`recebeuDanoRecente
      ensures ultimoTiro == (if old(ultimoTiro) > 0.0 then old(ultimoTiro) - dt else old(ultimoTiro))
      ensures cooldownHabilidade == (if old(cooldownHabilidade) > 0.0 then old(cooldownHabilidade) - dt else old(cooldownHabilidade))
      ensures tempoSemDano == (if old(tempoSemDano) > 0.0 then old(tempoSemDano) - dt else old(tempoSemDano))
      ensures recebeuDanoRecente == (old(recebeuDanoRecente) && !(old(tempoSemDano) > 0.0 && tempoSemDano <= 0.0))
    {
      if ultimoTiro > 0.0 {
        ultimoTiro := ultimoTiro - dt;
      }
      if cooldownHabilidade > 0.0 {
        cooldownHabilidade := cooldownHabilidade - dt;
      }
      if tempoSemDano > 0.0 {
        tempoSemDano := tempoSemDano - dt;
        if tempoSemDano <= 0.0 {
          recebeuDanoRecente := false;
        }
      }
    }

    /**
     * atualizar_efeitos_especiais: the charge, bottle-rain and legacy charge
     * timers run down and are deleted at 0; when a charge timer ends, the
     * speed goes back to the Brawler's base.
     */
    method AtualizarEfeitosEspeciais(dt: real)
      modifies this`efeitosEspeciais, this`velocidade
      ensures efeitosEspeciais ==
        Decorrer(Decorrer(Decorrer(old(efeitosEspeciais), "investida", dt), "chuva_garrafas", dt), "investida_tempo", dt)
      ensures velocidade == (if Termina(old(efeitosEspeciais), "investida", dt) || Termina(old(efeitosEspeciais), "investida_tempo", dt)
                             then personagem.velocidade else old(velocidade))
    {
      if Termina(efeitosEspeciais, "investida", dt) {
        velocidade := personagem.velocidade;
      }
      efeitosEspeciais := Decorrer(efeitosEspeciais, "investida", dt);
      efeitosEspeciais := Decorrer(efeitosEspeciais, "chuva_garrafas", dt);
      if Termina(efeitosEspeciais, "investida_tempo", dt) {
        velocidade := personagem.velocidade;
      }
      efeitosEspeciais := Decorrer(efeitosEspeciais, "investida_tempo", dt);
    }

    /**
     * obter_info_habilidade: ready exactly when the player's ability cooldown
     * has run out; the remaining time shown is never negative.
     */
    function ObterInfoHabilidade(): (info: InfoHabilidade)
      reads this
      ensures info.pronta <==> cooldownHabilidade <= 0.0
      ensures info.cooldownAtual >= 0.0 && (info.cooldownAtual == 0.0 <==> info.pronta)
      ensures !info.pronta ==> info.cooldownAtual == cooldownHabilidade
      ensures info.cooldownMax == personagem.cooldownHabilidadeMax
      ensures (info.nome, info.descricao) == TextoHabilidade(personagem.nome)
    {
      var t := TextoHabilidade(personagem.nome);
      InfoHabilidade(t.0, t.1, cooldownHabilidade <= 0.0, MaxR(0.0, cooldownHabilidade), personagem.cooldownHabilidadeMax)
    }
  }

  /** The timer of that key runs out in this frame. */
  predicate Termina(efeitos: map<string, real>, chave: string, dt: real)
  {
    chave in efeitos && efeitos[chave] - dt <= 0.0
  }

  lemma ExpirouSnoc(ps: seq<PowerUp>, p: PowerUp, dt: real, tipo: string)
    ensures Expirou(ps + [p], dt, tipo) <==> Expirou(ps, dt, tipo) || (p.tipo == tipo && p.tempoRestante - dt <= 0.0)
  {
    if Expirou(ps + [p], dt, tipo) {
      var i :| 0 <= i < |ps + [p]| && (ps + [p])[i].tipo == tipo && (ps + [p])[i].tempoRestante - dt <= 0.0;
      if i < |ps| {
        assert ps[i] == (ps + [p])[i];
      }
    }
    if Expirou(ps, dt, tipo) {
      var i :| 0 <= i < |ps| && ps[i].tipo == tipo && ps[i].tempoRestante - dt <= 0.0;
      assert (ps + [p])[i] == ps[i];
    }
    if p.tipo == tipo && p.tempoRestante - dt <= 0.0 {
      assert (ps + [p])[|ps|] == p;
    }
  }

  /** One entry of the copy: its time runs down; it is kept, or its effect is undone. */
  method VencerUm(antes: seq<PowerUp>, p: PowerUp, dt: real, velocidade: real, cooldownTiro: real,
                  velocidadeBase: real, cooldownBase: real, mantidos: seq<PowerUp>, v: real, c: real)
    returns (mantidos': seq<PowerUp>, v': real, c': real)
    requires mantidos == Restantes(antes, dt)
    requires v == (if Expirou(antes, dt, "velocidade") then velocidadeBase else velocidade)
    requires c == (if Expirou(antes, dt, "tiro_rapido") then cooldownBase else cooldownTiro)
    ensures mantidos' == Restantes(antes + [p], dt)
    ensures v' == (if Expirou(antes + [p], dt, "velocidade") then velocidadeBase else velocidade)
    ensures c' == (if Expirou(antes + [p], dt, "tiro_rapido") then cooldownBase else cooldownTiro)
  {
    var q := Passar(p, dt);
    assert (antes + [p])[..|antes|] == antes;
    ExpirouSnoc(antes, p, dt, "velocidade");
    ExpirouSnoc(antes, p, dt, "tiro_rapido");
    mantidos', v', c' := mantidos, v, c;
    if q.tempoRestante <= 0.0 {
      if q.tipo == "velocidade" {
        v' := velocidadeBase;
      } else if q.tipo == "tiro_rapido" {
        c' := cooldownBase;
      }
    } else {
      mantidos' := mantidos + [q];
    }
  }

  /**
   * The loop of atualizar_power_ups over a copy of the list: each entry's
   * time drops by dt; an entry that runs out puts its stat back to the base
   * value (speed or shot cooldown) and is dropped, the others are kept.
   */
  method VencerPowerUps(copia: seq<PowerUp>, dt: real, velocidade: real, cooldownTiro: real,
                        velocidadeBase: real, cooldownBase: real)
    returns (mantidos: seq<PowerUp>, v: real, c: real)
    ensures mantidos == Restantes(copia, dt)
    ensures v == (if Expirou(copia, dt, "velocidade") then velocidadeBase else velocidade)
    ensures c == (if Expirou(copia, dt, "tiro_rapido") then cooldownBase else cooldownTiro)
  {
    mantidos, v, c := [], velocidade, cooldownTiro;
    var i := 0;
    while i < |copia|
      invariant 0 <= i <= |copia|
      invariant mantidos == Restantes(copia[..i], dt)
      invariant v == (if Expirou(copia[..i], dt, "velocidade") then velocidadeBase else velocidade)
      invariant c == (if Expirou(copia[..i], dt, "tiro_rapido") then cooldownBase else cooldownTiro)
    {
      assert copia[..i + 1] == copia[..i] + [copia[i]];
      mantidos, v, c := VencerUm(copia[..i], copia[i], dt, velocidade, cooldownTiro, velocidadeBase, cooldownBase,
                                 mantidos, v, c);
      i := i + 1;
    }
    assert copia[..i] == copia;
  }

  /**
   * The Q ability fires once per Brawler: after it has fired, no update of
   * the player's timers, however long, lets it fire again, because only
   * atualizar_cooldowns lowers the Brawler's own cooldown and the player
   * never calls it.
   */
  method HabilidadeUmaVez(p: Player, dts: seq<real>) returns (primeira: bool, depois: bool)
    requires p.Valid()
    modifies p, p.personagem
    ensures primeira ==> !depois
  {
    primeira := p.UsarHabilidadeEspecial();
    var i := 0;
    while i < |dts|
      invariant 0 <= i <= |dts| && p.Valid()
      invariant primeira ==> p.personagem.cooldownHabilidade == p.personagem.cooldownHabilidadeMax
    {
      p.AtualizarTemporizadores(dts[i]);
      i := i + 1;
    }
    depois := p.UsarHabilidadeEspecial();
  }

  /**
   * The intended behaviour: with atualizar_cooldowns run beside the player's
   * own timers, the Q ability fires again once its cooldown has passed (the
   * bear ability, blocked while its bear lives, aside).
   */
  method HabilidadeRecarregada(p: Player, dt: real) returns (primeira: bool, depois: bool)
    requires p.Valid() && p.personagem.habilidade != HabInvocarUrso
    requires dt >= p.personagem.cooldownHabilidadeMax
    modifies p, p.personagem
    ensures primeira ==> depois
  {
    primeira := p.UsarHabilidadeEspecial();
    p.AtualizarTemporizadores(dt);
    p.personagem.AtualizarCooldowns(dt);
    depois := p.UsarHabilidadeEspecial();
  }
}
