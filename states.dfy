/**
 * src/gerenciador_estados.py: the screen-state manager. It knows which
 * screen is showing, routes each event to that screen's handler and turns
 * the handler's answer into a change of screen, plays a half-second fade on
 * every change, and builds a new Game whenever the game screen is entered.
 * The screens' own handlers are not modelled: their answer to the event (an
 * action string, or for the game whether to go on) is a parameter. Menus,
 * sounds and drawing are not modelled; a Game is represented by the number
 * of Games built before it.
 */
module ScreenStates {
  import opened Geometry

  datatype EstadoJogo = MenuPrincipal | Jogo | Configuracoes | Conquistas | Progressao | DetalhesBrawler | Pausado | GameOver

  /** duracao_transicao: never changed after construction. */
  const DURACAO_TRANSICAO: real := 0.5

  /**
   * The manager's state: the current screen, the fade, the Brawler whose
   * details are shown, the Game installed for the game screen (None until
   * the first one) and how many Games have been built on entering Jogo
   * (the temporary Game of inicializar_estados is not counted).
   */
  datatype Telas = Telas(estado: EstadoJogo, transicaoAtiva: bool, tempoTransicao: real,
                         brawlerDetalhes: Option<string>, jogo: Option<nat>, jogosCriados: nat)

  /**
   * What every operation keeps: a running fade has not reached its end,
   * the installed Game is one already built, and the game screen always has
   * one.
   */
  predicate Valida(t: Telas)
  {
    (t.transicaoAtiva ==> t.tempoTransicao < DURACAO_TRANSICAO) &&
    (t.jogo.Some? ==> t.jogo.value < t.jogosCriados) &&
    (t.estado == Jogo ==> t.jogo.Some?)
  }

  /** __init__: the main menu, no fade, no Game yet. */
  const INICIAL: Telas := Telas(MenuPrincipal, false, 0.0, None, None, 0)

  /**
   * mudar_estado: the current screen changes nothing; another screen
   * becomes current and starts the fade from zero, and entering the game
   * screen always installs a newly built Game.
   */
  function Mudado(t: Telas, novo: EstadoJogo): (r: Telas)
    ensures novo == t.estado ==> r == t
    ensures novo != t.estado ==> r.estado == novo && r.transicaoAtiva && r.tempoTransicao == 0.0
    ensures novo != t.estado && novo == Jogo ==> r.jogo == Some(t.jogosCriados) && r.jogosCriados == t.jogosCriados + 1
    ensures !(novo != t.estado && novo == Jogo) ==> r.jogo == t.jogo && r.jogosCriados == t.jogosCriados
    ensures r.brawlerDetalhes == t.brawlerDetalhes
    ensures Valida(t) ==> Valida(r)
  {
    if novo == t.estado then t
    else
      var u := if novo == Jogo then t.(jogo := Some(t.jogosCriados), jogosCriados := t.jogosCriados + 1) else t;
      u.(estado := novo, transicaoAtiva := true, tempoTransicao := 0.0)
  }

  /** Entering the game screen installs a Game different from every Game built before. */
  lemma JogoNovo(t: Telas)
    requires Valida(t) && t.estado != Jogo
    ensures var r := Mudado(t, Jogo); r.jogo.Some? && r.jogo != t.jogo && r.jogo.value == t.jogosCriados
  {
  }

  /**
   * update's fade: a running fade advances by dt and ends once it reaches
   * the duration. The current screen's own update is not modelled.
   */
  function Atualizado(t: Telas, dt: real): (r: Telas)
    ensures r.estado == t.estado && r.jogo == t.jogo && r.brawlerDetalhes == t.brawlerDetalhes
    ensures t.transicaoAtiva ==> r.tempoTransicao == t.tempoTransicao + dt &&
                                 (r.transicaoAtiva <==> t.tempoTransicao + dt < DURACAO_TRANSICAO)
    ensures !t.transicaoAtiva ==> r == t
    ensures Valida(t) ==> Valida(r)
  {
    if !t.transicaoAtiva then t
    else
      var u := t.(tempoTransicao := t.tempoTransicao + dt);
      if u.tempoTransicao >= DURACAO_TRANSICAO then u.(transicaoAtiva := false) else u
  }

  function Soma(dts: seq<real>): real
  {
    if dts == [] then 0.0 else Soma(dts[..|dts| - 1]) + dts[|dts| - 1]
  }

  /** update applied frame after frame. */
  function AtualizadoVarios(t: Telas, dts: seq<real>): Telas
  {
    if dts == [] then t else Atualizado(AtualizadoVarios(t, dts[..|dts| - 1]), dts[|dts| - 1])
  }

  /**
   * With non-negative frame times, a fade has ended once the frames since
   * it started add up to its duration; before that it is still running.
   */
  lemma {:induction false} FadeTermina(t: Telas, dts: seq<real>)
    requires t.transicaoAtiva && t.tempoTransicao == 0.0
    requires forall i :: 0 <= i < |dts| ==> dts[i] >= 0.0
    ensures AtualizadoVarios(t, dts).transicaoAtiva <==> Soma(dts) < DURACAO_TRANSICAO
    ensures AtualizadoVarios(t, dts).transicaoAtiva ==> AtualizadoVarios(t, dts).tempoTransicao == Soma(dts)
  {
    if dts != [] {
      var antes := dts[..|dts| - 1];
      FadeTermina(t, antes);
      var u := AtualizadoVarios(t, antes);
      if !u.transicaoAtiva {
        SomaCresce(dts);
      }
    }
  }

  /** A sum of non-negative frame times only grows as frames are added. */
  lemma SomaCresce(dts: seq<real>)
    requires dts != [] && forall i :: 0 <= i < |dts| ==> dts[i] >= 0.0
    ensures Soma(dts) >= Soma(dts[..|dts| - 1])
  {
  }

  /**
   * The screen handle_event moves to for the current screen's answer: the
   * main menu's actions lead to the game, settings, achievements and
   * progress screens; the game leads back to the main menu when it should
   * not go on; "voltar" leads back to the main menu from settings,
   * achievements and progress, and from the Brawler details to the progress
   * screen; "detalhes" leads from progress to the details.
   */
  function Destino(atual: EstadoJogo, resultado: Option<string>, continuar: bool): Option<EstadoJogo>
  {
    match atual
    case MenuPrincipal =>
      if resultado == Some("jogar") then Some(Jogo)
      else if resultado == Some("configuracoes") then Some(Configuracoes)
      else if resultado == Some("conquistas") then Some(Conquistas)
      else if resultado == Some("progressao") then Some(Progressao)
      else None
    case Jogo => if continuar then None else Some(MenuPrincipal)
    case Configuracoes => if resultado == Some("voltar") then Some(MenuPrincipal) else None
    case Conquistas => if resultado == Some("voltar") then Some(MenuPrincipal) else None
    case Progressao =>
      if resultado == Some("voltar") then Some(MenuPrincipal)
      else if resultado == Some("detalhes") then Some(DetalhesBrawler)
      else None
    case DetalhesBrawler => if resultado == Some("voltar") then Some(Progressao) else None
    case Pausado => None
    case GameOver => None
  }

  /** The screen has an entry in estados: the paused and game-over screens have none, the game screen none before its first Game. */
  predicate TemTela(t: Telas)
  {
    t.estado != Pausado && t.estado != GameOver && (t.estado == Jogo ==> t.jogo.Some?)
  }

  /** "sair" from the main menu closes the window and exits the program: handle_event does not return. */
  predicate Encerra(t: Telas, resultado: Option<string>)
  {
    TemTela(t) && t.estado == MenuPrincipal && resultado == Some("sair")
  }

  /** handle_event's effect when it returns: "detalhes" records the chosen Brawler, then the screen changes to Destino. */
  function Tratado(t: Telas, resultado: Option<string>, continuar: bool, selecionado: Option<string>): (r: Telas)
    ensures !TemTela(t) ==> r == t
    ensures TemTela(t) && Destino(t.estado, resultado, continuar).None? ==>
              r.estado == t.estado && r.transicaoAtiva == t.transicaoAtiva && r.jogo == t.jogo
    ensures TemTela(t) && Destino(t.estado, resultado, continuar).Some? ==>
              r.estado == Destino(t.estado, resultado, continuar).value && r.transicaoAtiva && r.tempoTransicao == 0.0
    ensures r.brawlerDetalhes ==
              (if TemTela(t) && t.estado == Progressao && resultado == Some("detalhes") then selecionado else t.brawlerDetalhes)
    ensures Valida(t) ==> Valida(r)
  {
    if !TemTela(t) then t
    else
      var u := if t.estado == Progressao && resultado == Some("detalhes") then t.(brawlerDetalhes := selecionado) else t;
      match Destino(t.estado, resultado, continuar)
      case Some(d) => Mudado(u, d)
      case None => u
  }

  /** "voltar" from the Brawler details leads to the progress screen, and "voltar" again to the main menu. */
  lemma VoltarDosDetalhes(t: Telas, c1: bool, c2: bool, s1: Option<string>, s2: Option<string>)
    requires t.estado == DetalhesBrawler
    ensures var u := Tratado(t, Some("voltar"), c1, s1);
      u.estado == Progressao && Tratado(u, Some("voltar"), c2, s2).estado == MenuPrincipal
  {
  }

  /** Leaving the game always leads to the main menu, and the next "jogar" builds another Game. */
  lemma JogarDeNovo(t: Telas, s1: Option<string>, s2: Option<string>)
    requires Valida(t) && t.estado == Jogo
    ensures var u := Tratado(t, s1, false, s2);
      var w := Tratado(u, Some("jogar"), true, s2);
      u.estado == MenuPrincipal && w.estado == Jogo && w.jogo.Some? && w.jogo != t.jogo
  {
  }

  /** desenhar_transicao's overlay alpha for the fade's progress: rising to 255 at the middle, then falling. */
  function Alpha(progresso: real): (a: int)
    ensures a <= 255
    ensures 0.0 <= progresso <= 1.0 ==> 0 <= a
  {
    if progresso < 0.5 then Trunc(255.0 * (progresso * 2.0))
    else Trunc(255.0 * (2.0 - progresso * 2.0))
  }

  /** The fade peaks at the middle and is symmetric around it. */
  lemma AlphaSimetrico(p: real)
    ensures Alpha(0.5) == 255
    ensures Alpha(p) == Alpha(1.0 - p)
  {
  }

  /** The fade darkens over its first half: a later progress gives at least the same alpha. */
  lemma AlphaSobe(p: real, q: real)
    requires 0.0 <= p <= q < 0.5
    ensures Alpha(p) <= Alpha(q)
  {
  }

  /** The alpha truncates to 0 within this much time of either end of the fade (1/510 of its progress). */
  const MARGEM_SOBREPOSICAO: real := 1.0 / 1020.0

  /**
   * The overlay render draws: only during a fade, only with a positive alpha,
   * and at every moment of a running fade except the first and last
   * MARGEM_SOBREPOSICAO seconds.
   */
  function Sobreposicao(t: Telas): (a: Option<int>)
    ensures a.Some? ==> t.transicaoAtiva && 0 < a.value <= 255
    ensures t.transicaoAtiva && 0.0 <= t.tempoTransicao <= DURACAO_TRANSICAO ==>
              (a.Some? <==> MARGEM_SOBREPOSICAO <= t.tempoTransicao <= DURACAO_TRANSICAO - MARGEM_SOBREPOSICAO)
  {
    if !t.transicaoAtiva then None
    else
      var alpha := Alpha(t.tempoTransicao / DURACAO_TRANSICAO);
      if alpha > 0 then Some(alpha) else None
  }

  class GerenciadorEstados {
    var estadoAtual: EstadoJogo
    var transicaoAtiva: bool
    var tempoTransicao: real
    var brawlerDetalhes: Option<string>
    /** estados[JOGO]: the Game installed for the game screen. */
    var jogo: Option<nat>
    var jogosCriados: nat

    function Estado(): Telas
      reads this
    {
      Telas(estadoAtual, transicaoAtiva, tempoTransicao, brawlerDetalhes, jogo, jogosCriados)
    }

    constructor ()
      ensures Estado() == INICIAL && Valida(Estado())
    {
      estadoAtual := MenuPrincipal;
      transicaoAtiva := false;
      tempoTransicao := 0.0;
      brawlerDetalhes := None;
      jogo := None;
      jogosCriados := 0;
    }

    /** iniciar_transicao. */
    method IniciarTransicao()
      modifies this`transicaoAtiva, this`tempoTransicao
      ensures transicaoAtiva && tempoTransicao == 0.0
    {
      transicaoAtiva := true;
      tempoTransicao := 0.0;
    }

    /** mudar_estado. */
    method MudarEstado(novo: EstadoJogo)
      modifies this
      ensures Estado() == Mudado(old(Estado()), novo)
    {
      if novo == estadoAtual {
        return;
      }
      if novo == Jogo {
        jogo := Some(jogosCriados);
        jogosCriados := jogosCriados + 1;
      }
      estadoAtual := novo;
      IniciarTransicao();
    }

    /** update (the fade; the current screen's own update is not modelled). */
    method Update(dt: real)
      modifies this`transicaoAtiva, this`tempoTransicao
      ensures Estado() == Atualizado(old(Estado()), dt)
    {
      if transicaoAtiva {
        tempoTransicao := tempoTransicao + dt;
        if tempoTransicao >= DURACAO_TRANSICAO {
          transicaoAtiva := false;
        }
      }
    }

    /**
     * handle_event, given the current screen's answer to the event:
     * `resultado` from a menu, `continuar` from the game, `selecionado` the
     * progress menu's chosen Brawler. It answers true on every path; "sair"
     * from the main menu exits the program instead, which the answer false
     * stands for here, with nothing changed.
     */
    method HandleEvent(resultado: Option<string>, continuar: bool, selecionado: Option<string>) returns (r: bool)
      modifies this
      ensures r <==> !Encerra(old(Estado()), resultado)
      ensures r ==> Estado() == Tratado(old(Estado()), resultado, continuar, selecionado)
      ensures !r ==> Estado() == old(Estado())
    {
      if !TemTela(Estado()) {
        return true;
      }
      if estadoAtual == MenuPrincipal && resultado == Some("sair") {
        return false;
      }
      if estadoAtual == Progressao && resultado == Some("detalhes") {
        brawlerDetalhes := selecionado;
      }
      var destino := Destino(estadoAtual, resultado, continuar);
      if destino.Some? {
        MudarEstado(destino.value);
      }
      return true;
    }
  }
}
