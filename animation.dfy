/**
 * src/animacao_personagem.py: the animation state of a character. A state
 * change restarts the state's clocks; the per-frame update picks the state
 * from the frame's flags (damage, victory, movement) and runs the damage and
 * victory timers down; the sprite of the moment is cached per state and
 * tenth of a second, the cache being emptied once it holds more than 50
 * entries. The sprites themselves are drawings and are not modelled: a
 * sprite here is the state and animation time it was drawn for.
 */
module Animations {
  import opened Geometry

  datatype EstadoAnimacao = Idle | Movimento | Dano | Vitoria | Ataque

  /** duracao_dano and duracao_vitoria: never changed after construction. */
  const DURACAO_DANO: real := 0.5
  const DURACAO_VITORIA: real := 3.0
  /** obter_sprite_atual empties the cache once it holds more entries than this. */
  const LIMITE_CACHE: int := 50

  /** The state and the clocks that definir_estado and update act on. */
  datatype Relogio = Relogio(estado: EstadoAnimacao, tempoEstado: real, frame: int, tempoDano: real, tempoVitoria: real)

  /**
   * definir_estado: the current state changes nothing; another state restarts
   * the state clock and the frame, and DANO and VITORIA also start their
   * own timers.
   */
  function Definido(s: Relogio, novo: EstadoAnimacao): (r: Relogio)
    ensures r.estado == novo
    ensures novo == s.estado ==> r == s
    ensures novo != s.estado ==> r.tempoEstado == 0.0 && r.frame == 0
    ensures r.tempoDano == (if novo != s.estado && novo == Dano then DURACAO_DANO else s.tempoDano)
    ensures r.tempoVitoria == (if novo != s.estado && novo == Vitoria then DURACAO_VITORIA else s.tempoVitoria)
  {
    if novo == s.estado then s
    else
      var t := Relogio(novo, 0.0, 0, s.tempoDano, s.tempoVitoria);
      if novo == Dano then t.(tempoDano := DURACAO_DANO)
      else if novo == Vitoria then t.(tempoVitoria := DURACAO_VITORIA)
      else t
  }

  /**
   * The state update hands to definir_estado, if any: a damage flag only
   * once the damage timer has run out, then victory, then movement;
   * without any of them DANO and ATAQUE fall back to IDLE once the damage
   * timer has run out and MOVIMENTO falls back to IDLE.
   */
  function Pedido(s: Relogio, estaMovendo: bool, recebeuDano: bool, venceu: bool): Option<EstadoAnimacao>
  {
    if recebeuDano && s.tempoDano <= 0.0 then Some(Dano)
    else if venceu then Some(Vitoria)
    else if estaMovendo then Some(Movimento)
    else if s.estado == Dano || s.estado == Ataque then
      (if s.tempoDano <= 0.0 then Some(Idle) else None)
    else if s.estado == Movimento then Some(Idle)
    else None
  }

  /** A timer that runs down only while it is positive. */
  function Decorre(t: real, dt: real): real
  {
    if t > 0.0 then t - dt else t
  }

  /** update on the clocks: the state clock advances, the state is chosen, the timers run down. */
  function Atualizado(s: Relogio, dt: real, estaMovendo: bool, recebeuDano: bool, venceu: bool): Relogio
  {
    var t := s.(tempoEstado := s.tempoEstado + dt);
    var d := match Pedido(s, estaMovendo, recebeuDano, venceu)
      case Some(novo) => Definido(t, novo)
      case None => t;
    d.(tempoDano := Decorre(d.tempoDano, dt), tempoVitoria := Decorre(d.tempoVitoria, dt))
  }

  /** The state update ends in, in order of priority. */
  lemma EstadoAtualizado(s: Relogio, dt: real, estaMovendo: bool, recebeuDano: bool, venceu: bool)
    ensures var r := Atualizado(s, dt, estaMovendo, recebeuDano, venceu);
      (recebeuDano && s.tempoDano <= 0.0 ==> r.estado == Dano) &&
      (!(recebeuDano && s.tempoDano <= 0.0) && venceu ==> r.estado == Vitoria) &&
      (!(recebeuDano && s.tempoDano <= 0.0) && !venceu && estaMovendo ==> r.estado == Movimento)
    ensures var r := Atualizado(s, dt, estaMovendo, recebeuDano, venceu);
      !(recebeuDano && s.tempoDano <= 0.0) && !venceu && !estaMovendo ==>
        r.estado == (if s.estado == Movimento || ((s.estado == Dano || s.estado == Ataque) && s.tempoDano <= 0.0) then Idle
                     else s.estado)
  {
  }

  /**
   * The damage timer after update: a running one only runs down, so a hit
   * during the damage animation does not restart it; an expired one
   * restarts (less the frame's dt) exactly when a hit comes while the state
   * is not already DANO.
   */
  lemma TempoDanoAtualizado(s: Relogio, dt: real, estaMovendo: bool, recebeuDano: bool, venceu: bool)
    ensures var r := Atualizado(s, dt, estaMovendo, recebeuDano, venceu);
      s.tempoDano > 0.0 ==> r.tempoDano == s.tempoDano - dt
    ensures var r := Atualizado(s, dt, estaMovendo, recebeuDano, venceu);
      s.tempoDano <= 0.0 ==>
        r.tempoDano == (if recebeuDano && s.estado != Dano then DURACAO_DANO - dt else s.tempoDano)
  {
  }

  /** A change of state restarts the state clock and the frame; otherwise the state clock advances by dt. */
  lemma RelogioDoEstado(s: Relogio, dt: real, estaMovendo: bool, recebeuDano: bool, venceu: bool)
    ensures var r := Atualizado(s, dt, estaMovendo, recebeuDano, venceu);
      if r.estado != s.estado then r.tempoEstado == 0.0 && r.frame == 0
      else r.tempoEstado == s.tempoEstado + dt && r.frame == s.frame
  {
  }

  /**
   * pode_executar_acao: a character in DANO or VITORIA may not act while
   * the damage or the victory timer is still positive.
   */
  function Livre(s: Relogio): (r: bool)
    ensures !r <==> (s.estado == Dano || s.estado == Vitoria) && (s.tempoDano > 0.0 || s.tempoVitoria > 0.0)
  {
    !(s.estado == Dano || s.estado == Vitoria) || (s.tempoDano <= 0.0 && s.tempoVitoria <= 0.0)
  }

  /** A fresh hit blocks actions for the frame it lands in (any dt shorter than the damage animation). */
  lemma AcertoBloqueia(s: Relogio, dt: real, estaMovendo: bool, venceu: bool)
    requires s.tempoDano <= 0.0 && s.estado != Dano && dt < DURACAO_DANO
    ensures !Livre(Atualizado(s, dt, estaMovendo, true, venceu))
  {
    TempoDanoAtualizado(s, dt, estaMovendo, true, venceu);
  }

  /** The key of the sprite cache: the state and the animation time in whole tenths of a second. */
  datatype Chave = Chave(estado: EstadoAnimacao, decimos: int)

  /** The sprite drawn for a state at an animation time (the drawing itself is not modelled). */
  datatype Sprite = Sprite(estado: EstadoAnimacao, tempo: real)

  class AnimacaoPersonagem {
    /** The character's name; the drawing styles chosen from it are not modelled. */
    const nome: string
    var estadoAtual: EstadoAnimacao
    var tempoAnimacao: real
    var tempoEstado: real
    var frameAtual: int
    var tempoDano: real
    var tempoVitoria: real
    var venceuJogo: bool
    var recebeuDanoRecente: bool
    var cacheSprites: map<Chave, Sprite>

    predicate Valid()
      reads this
    {
      |cacheSprites| <= LIMITE_CACHE
    }

    function Quadro(): Relogio
      reads this
    {
      Relogio(estadoAtual, tempoEstado, frameAtual, tempoDano, tempoVitoria)
    }

    function PodeExecutarAcao(): bool
      reads this
    {
      Livre(Quadro())
    }

    constructor (nome: string)
      ensures Valid() && this.nome == nome
      ensures Quadro() == Relogio(Idle, 0.0, 0, 0.0, 0.0) && tempoAnimacao == 0.0
      ensures !venceuJogo && !recebeuDanoRecente && cacheSprites == map[]
    {
      this.nome := nome;
      estadoAtual := Idle;
      tempoAnimacao := 0.0;
      tempoEstado := 0.0;
      frameAtual := 0;
      tempoDano := 0.0;
      tempoVitoria := 0.0;
      venceuJogo := false;
      recebeuDanoRecente := false;
      cacheSprites := map[];
    }

    /** definir_estado. */
    method DefinirEstado(novo: EstadoAnimacao)
      modifies this`estadoAtual, this`tempoEstado, this`frameAtual, this`tempoDano, this`tempoVitoria
      ensures Quadro() == Definido(old(Quadro()), novo)
    {
      if novo != estadoAtual {
        estadoAtual := novo;
        tempoEstado := 0.0;
        frameAtual := 0;
        if novo == Dano {
          tempoDano := DURACAO_DANO;
        } else if novo == Vitoria {
          tempoVitoria := DURACAO_VITORIA;
        }
      }
    }

    /** update: both clocks advance, the state is chosen from the flags, the timers run down. */
    method Update(dt: real, estaMovendo: bool, recebeuDano: bool, venceu: bool)
      modifies this`estadoAtual, this`tempoAnimacao, this`tempoEstado, this`frameAtual, this`tempoDano, this`tempoVitoria
      ensures Quadro() == Atualizado(old(Quadro()), dt, estaMovendo, recebeuDano, venceu)
      ensures tempoAnimacao == old(tempoAnimacao) + dt
    {
      var pedido := Pedido(Quadro(), estaMovendo, recebeuDano, venceu);
      tempoAnimacao := tempoAnimacao + dt;
      tempoEstado := tempoEstado + dt;
      if pedido.Some? {
        DefinirEstado(pedido.value);
      }
      if tempoDano > 0.0 {
        tempoDano := tempoDano - dt;
      }
      if tempoVitoria > 0.0 {
        tempoVitoria := tempoVitoria - dt;
      }
    }

    /**
     * obter_sprite_atual: a cached sprite for the current state and tenth of
     * a second is returned as it was drawn; otherwise the sprite is drawn
     * now and cached, and the whole cache is emptied when that makes it
     * hold more than 50 entries.
     */
    method ObterSpriteAtual() returns (sprite: Sprite)
      requires Valid()
      modifies this`cacheSprites
      ensures Valid()
      ensures var k := Chave(estadoAtual, Trunc(tempoAnimacao * 10.0));
        if k in old(cacheSprites) then sprite == old(cacheSprites)[k] && cacheSprites == old(cacheSprites)
        else sprite == Sprite(estadoAtual, tempoAnimacao) &&
             cacheSprites == (if |old(cacheSprites)| + 1 > LIMITE_CACHE then map[] else old(cacheSprites)[k := sprite])
    {
      var k := Chave(estadoAtual, Trunc(tempoAnimacao * 10.0));
      if k in cacheSprites {
        return cacheSprites[k];
      }
      sprite := Sprite(estadoAtual, tempoAnimacao);
      cacheSprites := cacheSprites[k := sprite];
      if |cacheSprites| > LIMITE_CACHE {
        cacheSprites := map[];
      }
    }

    /** iniciar_animacao_ataque. */
    method IniciarAnimacaoAtaque()
      modifies this`estadoAtual, this`tempoEstado, this`frameAtual, this`tempoDano, this`tempoVitoria
      ensures Quadro() == Definido(old(Quadro()), Ataque)
    {
      DefinirEstado(Ataque);
    }

    /** iniciar_celebracao_vitoria: VITORIA, and the game is marked as won. */
    method IniciarCelebracaoVitoria()
      modifies this`estadoAtual, this`tempoEstado, this`frameAtual, this`tempoDano, this`tempoVitoria, this`venceuJogo
      ensures Quadro() == Definido(old(Quadro()), Vitoria) && venceuJogo
    {
      DefinirEstado(Vitoria);
      venceuJogo := true;
    }

    /** resetar_animacoes: IDLE with every clock at zero and both flags off; the frame and the cache are kept. */
    method ResetarAnimacoes()
      modifies this`estadoAtual, this`tempoAnimacao, this`tempoEstado, this`tempoDano, this`tempoVitoria,
               this`venceuJogo, this`recebeuDanoRecente
      ensures Quadro() == Relogio(Idle, 0.0, old(frameAtual), 0.0, 0.0) && tempoAnimacao == 0.0
      ensures !venceuJogo && !recebeuDanoRecente
      ensures PodeExecutarAcao()
    {
      estadoAtual := Idle;
      tempoAnimacao := 0.0;
      tempoEstado := 0.0;
      tempoDano := 0.0;
      tempoVitoria := 0.0;
      venceuJogo := false;
      recebeuDanoRecente := false;
    }
  }

  /** Asked twice at the same moment, the cache gives the same sprite, whether or not the first call emptied it. */
  method SpriteEstavel(a: AnimacaoPersonagem) returns (primeiro: Sprite, segundo: Sprite)
    requires a.Valid()
    modifies a`cacheSprites
    ensures a.Valid() && primeiro == segundo
  {
    primeiro := a.ObterSpriteAtual();
    segundo := a.ObterSpriteAtual();
  }
}
