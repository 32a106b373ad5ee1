/**
 * src/enemy.py: an enemy is another Brawler, a little weaker than the
 * player's version of it. It dies on its first update at zero health, is
 * clamped to the screen when it moves, shoots only at a visible player in
 * range, and sees a player hidden in a bush only from close by. Its AI picks
 * the step it takes from random draws and `math.sqrt`, so the step is an
 * input here; the visual effects are not modelled.
 */
module Enemies {
  import opened Geometry
  import opened Bullets
  import opened Characters
  import Bushes

  const TAMANHO_COLISAO: int := 30
  /** tentar_atirar fires only below this distance. */
  const ALCANCE_TIRO: int := 400
  /** A player in a bush is seen only below this distance. */
  const ALCANCE_ARBUSTO: int := 50

  /**
   * The rect and float centre of an enemy after mover's step (dx, dy): the
   * horizontal step re-centres the rect on the truncated centre and is clamped
   * to the screen; the vertical step only moves the float centre unless the
   * rect already lies past the top or bottom edge, where it is put back.
   */
  function Movido(r: Rect, px: real, py: real, dx: real, dy: real): (q: (Rect, real, real))
    ensures q.0.w == r.w && q.0.h == r.h
    ensures 0 <= r.w <= SCREEN_WIDTH ==> 0 <= q.0.x && q.0.Right() <= SCREEN_WIDTH
    ensures 0 <= r.y && r.Bottom() <= SCREEN_HEIGHT ==> q.0.y == r.y && q.2 == py + dy
  {
    var x := Trunc(px + dx) - r.w / 2;
    var rx := if x < 0 then r.(x := 0) else if x + r.w > SCREEN_WIDTH then r.(x := SCREEN_WIDTH - r.w) else r.(x := x);
    var nx := if rx.x == x then px + dx else CenterX(rx) as real;
    var ry := if r.y < 0 then rx.(y := 0) else if r.Bottom() > SCREEN_HEIGHT then rx.(y := SCREEN_HEIGHT - r.h) else rx;
    var ny := if ry.y == r.y then py + dy else CenterY(ry) as real;
    (ry, nx, ny)
  }

  /** The Brawlers other than the player's, in order (all of them when the player has no Brawler). */
  function Diferentes(nomes: seq<string>, jogador: Option<string>): (r: seq<string>)
    ensures |r| <= |nomes|
    ensures forall i :: 0 <= i < |r| ==> r[i] in nomes && jogador.Some? && r[i] != jogador.value
  {
    if nomes == [] || jogador.None? then []
    else Diferentes(nomes[..|nomes| - 1], jogador) +
           (if nomes[|nomes| - 1] != jogador.value then [nomes[|nomes| - 1]] else [])
  }

  /** Every name other than the player's Brawler's is a candidate. */
  lemma {:induction false} DiferentesCompleto(nomes: seq<string>, nome: string, i: int)
    requires 0 <= i < |nomes| && nomes[i] != nome
    ensures nomes[i] in Diferentes(nomes, Some(nome))
  {
    if i < |nomes| - 1 {
      DiferentesCompleto(nomes[..|nomes| - 1], nome, i);
    }
  }

  /**
   * The Brawler an enemy becomes: the forced one when it is one of the six;
   * otherwise the random draw (an index, reduced modulo the list) picks among
   * the Brawlers other than the player's, or among all six when that list is
   * empty.
   */
  function EscolherNome(forcado: Option<string>, jogador: Option<string>, sorteio: nat): (n: string)
    ensures n in PERSONAGENS_DISPONIVEIS
    ensures forcado.Some? && forcado.value in PERSONAGENS_DISPONIVEIS ==> n == forcado.value
  {
    if forcado.Some? && forcado.value in PERSONAGENS_DISPONIVEIS then forcado.value
    else
      var d := Diferentes(PERSONAGENS_DISPONIVEIS, jogador);
      if |d| > 0 then d[sorteio % |d|] else PERSONAGENS_DISPONIVEIS[sorteio % |PERSONAGENS_DISPONIVEIS|]
  }

  /** Unless it is forced, an enemy is never the player's own Brawler. */
  lemma NuncaRepete(forcado: Option<string>, nome: string, sorteio: nat)
    requires !(forcado.Some? && forcado.value in PERSONAGENS_DISPONIVEIS)
    ensures EscolherNome(forcado, Some(nome), sorteio) != nome
  {
    if nome == "Shelly" {
      DiferentesCompleto(PERSONAGENS_DISPONIVEIS, nome, 1);
    } else {
      DiferentesCompleto(PERSONAGENS_DISPONIVEIS, nome, 0);
    }
  }

  /** int(vida_maxima * 0.8): four fifths, rounded down. */
  function VidaInimigo(vidaMaxima: int): (v: int)
    ensures vidaMaxima >= 0 ==> v == vidaMaxima * 4 / 5 && 0 <= v <= vidaMaxima
  {
    Trunc(vidaMaxima as real * 0.8)
  }

  /** int(dano * 0.9): nine tenths, rounded down. */
  function DanoInimigo(dano: int): (d: int)
    ensures dano >= 0 ==> d == dano * 9 / 10 && 0 <= d <= dano
  {
    Trunc(dano as real * 0.9)
  }

  class Enemy {
    const nomePersonagem: string
    const personagem: Personagem
    /** The player as the bush system sees it; its rect centre is passed to the methods that need it. */
    const jogador: Bushes.Entidade
    var rect: Rect
    var vida: int
    const vidaMaxima: int
    const velocidade: real
    const danoBase: int
    var ultimoTiro: real
    const cooldownTiro: real
    var posX: real
    var posY: real
    /** Set by the game after construction. */
    var gerenciadorArbustos: Option<Bushes.GerenciadorArbustos>
    /** pygame's Sprite.alive(): still in the game's groups; kill() clears it. */
    var vivo: bool

    predicate Valid()
      reads this
    {
      personagem.Valid() && rect.w == TAMANHO_COLISAO && rect.h == TAMANHO_COLISAO
    }

    /**
     * Enemy.__init__: the chosen Brawler, health and damage scaled down from
     * it, the given speed or four fifths of the Brawler's, and the shot
     * cooldown scaled by the difficulty multiplier.
     */
    constructor (x: int, y: int, jogadorNome: Option<string>, jogador: Bushes.Entidade, velocidade: Option<real>,
                 multiplicadorTiro: real, forcado: Option<string>, sorteio: nat)
      requires multiplicadorTiro != 0.0
      ensures Valid() && nomePersonagem == EscolherNome(forcado, jogadorNome, sorteio)
      ensures personagem.FichaAtual() == FichaDe(nomePersonagem) && this.jogador == jogador
      ensures rect == Rect(x - TAMANHO_COLISAO / 2, y - TAMANHO_COLISAO / 2, TAMANHO_COLISAO, TAMANHO_COLISAO)
      ensures vida == vidaMaxima == VidaInimigo(personagem.vidaMaxima)
      ensures this.velocidade == (if velocidade.Some? then velocidade.value else personagem.velocidade * 0.8)
      ensures danoBase == DanoInimigo(personagem.dano)
      ensures cooldownTiro == personagem.cooldown * 1.2 / multiplicadorTiro
      ensures ultimoTiro == 0.0 && posX == x as real && posY == y as real
      ensures gerenciadorArbustos.None? && !vivo
    {
      nomePersonagem := EscolherNome(forcado, jogadorNome, sorteio);
      var p := new Personagem(EscolherNome(forcado, jogadorNome, sorteio));
      personagem := p;
      this.jogador := jogador;
      rect := Rect(x - TAMANHO_COLISAO / 2, y - TAMANHO_COLISAO / 2, TAMANHO_COLISAO, TAMANHO_COLISAO);
      vida := VidaInimigo(p.vidaMaxima);
      vidaMaxima := VidaInimigo(p.vidaMaxima);
      this.velocidade := if velocidade.Some? then velocidade.value else p.velocidade * 0.8;
      danoBase := DanoInimigo(p.dano);
      ultimoTiro := 0.0;
      cooldownTiro := p.cooldown * 1.2 / multiplicadorTiro;
      posX := x as real;
      posY := y as real;
      gerenciadorArbustos := None;
      vivo := false;
    }

    /**
     * update: an enemy at zero health leaves the game and does nothing else;
     * otherwise it takes the AI's step and its shot cooldown runs down.
     */
    method Update(dt: real, dx: real, dy: real)
      requires Valid()
      modifies this`vivo, this`rect, this`posX, this`posY, this`ultimoTiro
      ensures Valid()
      ensures old(vida) <= 0 ==>
        !vivo && rect == old(rect) && posX == old(posX) && posY == old(posY) && ultimoTiro == old(ultimoTiro)
      ensures old(vida) > 0 ==>
        vivo == old(vivo) && 0 <= rect.x && rect.Right() <= SCREEN_WIDTH &&
        ultimoTiro == (if old(ultimoTiro) > 0.0 then old(ultimoTiro) - dt else old(ultimoTiro))
      ensures old(vida) > 0 ==> (rect, posX, posY) == Movido(old(rect), old(posX), old(posY), dx, dy)
    {
      if vida <= 0 {
        vivo := false;
        return;
      }
      // mover does not touch the cooldown, so it may run down first
      if ultimoTiro > 0.0 {
        ultimoTiro := ultimoTiro - dt;
      }
      Mover(dx, dy);
    }

    /**
     * mover: the horizontal step moves the rect with the centre and is
     * clamped to the screen, the centre then following the rect. The
     * vertical step only moves the float centre: the rect is never
     * re-centred vertically, so it moves only when the clamps put it back on
     * screen.
     */
    method Mover(dx: real, dy: real)
      requires Valid()
      modifies this`rect, this`posX, this`posY
      ensures Valid()
      ensures 0 <= rect.x && rect.Right() <= SCREEN_WIDTH
      ensures var x := Trunc(old(posX) + dx) - rect.w / 2;
        rect.x == (if x < 0 then 0 else if x + rect.w > SCREEN_WIDTH then SCREEN_WIDTH - rect.w else x)
      ensures posX == (if rect.x == Trunc(old(posX) + dx) - rect.w / 2 then old(posX) + dx else CenterX(rect) as real)
      ensures rect.y == (if old(rect.y) < 0 then 0 else if old(rect.Bottom()) > SCREEN_HEIGHT then SCREEN_HEIGHT - rect.h else old(rect.y))
      ensures posY == (if rect.y == old(rect.y) then old(posY) + dy else CenterY(rect) as real)
      ensures (rect, posX, posY) == Movido(old(rect), old(posX), old(posY), dx, dy)
    {
      var nx := posX + dx;
      var r := rect.(x := Trunc(nx) - rect.w / 2);
      if r.x < 0 {
        r := r.(x := 0);
        nx := CenterX(r) as real;
      } else if r.Right() > SCREEN_WIDTH {
        r := r.(x := SCREEN_WIDTH - r.w);
        nx := CenterX(r) as real;
      }
      var ny := posY + dy;
      if r.y < 0 {
        r := r.(y := 0);
        ny := CenterY(r) as real;
      } else if r.Bottom() > SCREEN_HEIGHT {
        r := r.(y := SCREEN_HEIGHT - r.h);
        ny := CenterY(r) as real;
      }
      rect, posX, posY := r, nx, ny;
    }

    /** The player is in one of the bushes of the enemy's bush manager. */
    predicate JogadorEscondido()
      reads this, if gerenciadorArbustos.Some? then {gerenciadorArbustos.value} else {}
      reads if gerenciadorArbustos.Some? then set b | b in gerenciadorArbustos.value.arbustos else {}
    {
      gerenciadorArbustos.Some? &&
      exists k :: 0 <= k < |gerenciadorArbustos.value.arbustos| && jogador in gerenciadorArbustos.value.arbustos[k].entidadesDentro
    }

    /**
     * _pode_ver_jogador, with the squared distance: always without a bush
     * manager or with the player outside every bush; a player in some bush
     * only closer than 50.
     */
    method PodeVerJogador(distanciaSq: int) returns (r: bool)
      ensures gerenciadorArbustos.None? ==> r
      ensures r <==> (JogadorEscondido() ==> distanciaSq < ALCANCE_ARBUSTO * ALCANCE_ARBUSTO)
    {
      if gerenciadorArbustos.None? {
        return true;
      }
      var escondido := gerenciadorArbustos.value.EntidadeEstaEscondida(jogador);
      if escondido {
        return distanciaSq < ALCANCE_ARBUSTO * ALCANCE_ARBUSTO;
      }
      return true;
    }

    /**
     * tentar_atirar: only with the cooldown run out, a player strictly
     * between 0 and 400 away, and visible. The shot starts at the enemy's
     * centre, flies in the given direction (the normalised, jittered aim),
     * carries the enemy's damage, and restarts the cooldown.
     */
    method TentarAtirar(centroJogador: (int, int), direcao: (real, real)) returns (tiro: Option<Bullet>)
      requires Valid()
      modifies this`ultimoTiro
      ensures Valid()
      ensures var d := DistSqCentros(rect, centroJogador);
        tiro.Some? <==> old(ultimoTiro) <= 0.0 && 0 < d < ALCANCE_TIRO * ALCANCE_TIRO &&
                        (JogadorEscondido() ==> d < ALCANCE_ARBUSTO * ALCANCE_ARBUSTO)
      ensures tiro.None? ==> ultimoTiro == old(ultimoTiro)
      ensures tiro.Some? ==>
        ultimoTiro == cooldownTiro && fresh(tiro.value) &&
        tiro.value.deInimigo && tiro.value.dano == danoBase && tiro.value.tipoTiro == personagem.tipoTiro &&
        tiro.value.ativo && tiro.value.posX == CenterX(rect) as real && tiro.value.posY == CenterY(rect) as real &&
        tiro.value.velX == direcao.0 * VELOCIDADE_TIRO && tiro.value.velY == direcao.1 * VELOCIDADE_TIRO &&
        tiro.value.Valid()
    {
      if ultimoTiro <= 0.0 {
        var d := DistSqCentros(rect, centroJogador);
        var podeVer := PodeVerJogador(d);
        if 0 < d < ALCANCE_TIRO * ALCANCE_TIRO && podeVer {
          var b := new Bullet(CenterX(rect) as real, CenterY(rect) as real, direcao.0, direcao.1,
                              true, danoBase, 1.0, 0.0, personagem.tipoTiro);
          ultimoTiro := cooldownTiro;
          return Some(b);
        }
      }
      return None;
    }

    /** receber_dano: health drops by the damage but never below 0. */
    method ReceberDano(dano: int)
      modifies this`vida
      ensures vida == Max(old(vida) - dano, 0)
      ensures vida >= 0 && (dano >= 0 ==> vida <= Max(old(vida), 0))
    {
      vida := Max(vida - dano, 0);
    }
  }

  /**
   * Squared distance between the rect centre and the player's centre; the
   * source compares its square root with 400 and 50, which for integers is
   * the same as comparing the square with 400² and 50².
   */
  function DistSqCentros(r: Rect, c: (int, int)): (d: int)
    ensures d >= 0
  {
    var dx := c.0 - CenterX(r);
    var dy := c.1 - CenterY(r);
    dx * dx + dy * dy
  }

  /** The sum of a sequence of steps. */
  function Soma(s: seq<real>): real
  {
    if s == [] then 0.0 else Soma(s[..|s| - 1]) + s[|s| - 1]
  }

  /**
   * The hitbox does not follow vertical movement: once the rect is on the
   * screen vertically, any sequence of vertical steps moves the float
   * centre by their sum and leaves the rect's height position where it was.
   */
  method DerivaVertical(e: Enemy, dys: seq<real>)
    requires e.Valid() && 0 <= e.rect.y && e.rect.Bottom() <= SCREEN_HEIGHT
    modifies e
    ensures e.Valid() && e.rect.y == old(e.rect.y) && e.posY == old(e.posY) + Soma(dys)
  {
    var i := 0;
    while i < |dys|
      invariant 0 <= i <= |dys| && e.Valid()
      invariant e.rect.y == old(e.rect.y) && e.posY == old(e.posY) + Soma(dys[..i])
    {
      e.Mover(0.0, dys[i]);
      assert dys[..i + 1][..i] == dys[..i];
      i := i + 1;
    }
    assert dys[..i] == dys;
  }
}
