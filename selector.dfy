/**
 * src/characters/seletor_personagem.py: the character carousel. Left and
 * right keys move the highlighted card around the list of Brawlers (with
 * wrap-around), Enter or Space chooses the highlighted Brawler, Escape and C
 * ask the caller for the previous screen and the audio settings, and
 * update starts a short transition whenever the highlighted card changed.
 * Fonts, particles, card rotation and sounds are not modelled.
 */
module Selector {
  import opened Geometry
  import opened Characters

  /** The keys the carousel reacts to; any other key is Outra. */
  datatype Tecla = Esquerda | TeclaA | Direita | TeclaD | Enter | Espaco | Escape | TeclaC | Outra
  /** A pygame event: only key presses matter. */
  datatype Evento = TeclaPressionada(tecla: Tecla) | OutroEvento

  /** The transition started when the highlighted card changes. */
  const DURACAO_TRANSICAO_CARD: real := 0.5

  /** len(self.personagens): the six Brawlers. */
  const QUANTIDADE: int := 6

  /** One step around the carousel: Python's modulo keeps the index in range. */
  function Vizinho(i: int, passo: int): (j: int)
    ensures 0 <= j < QUANTIDADE
    ensures 0 <= i + passo < QUANTIDADE ==> j == i + passo
    ensures i + passo == -1 ==> j == QUANTIDADE - 1
    ensures i + passo == QUANTIDADE ==> j == 0
  {
    (i + passo) % QUANTIDADE
  }

  /** A step left undoes a step right and the other way round. */
  lemma VizinhoVolta(i: int)
    requires 0 <= i < QUANTIDADE
    ensures Vizinho(Vizinho(i, 1), -1) == i
    ensures Vizinho(Vizinho(i, -1), 1) == i
  {
  }

  /** k steps right from index i. */
  function Girado(i: int, k: nat): (j: int)
    ensures 0 <= j < QUANTIDADE
  {
    if k == 0 then i % QUANTIDADE else Vizinho(Girado(i, k - 1), 1)
  }

  /** Going right k times lands on (i + k) mod 6: a full turn comes back to the start. */
  lemma {:induction false} GiradoModulo(i: int, k: nat)
    ensures Girado(i, k) == (i + k) % QUANTIDADE
  {
    if k > 0 {
      GiradoModulo(i, k - 1);
    }
  }

  class SeletorPersonagem {
    const personagens: seq<string>
    var personagemSelecionado: int
    var ultimoSelecionado: int
    var tempoTransicao: real
    var tempoAnimacao: real
    var animacaoSelecao: real

    predicate Valid()
      reads this
    {
      personagens == PERSONAGENS_DISPONIVEIS && |personagens| == QUANTIDADE &&
      0 <= personagemSelecionado < QUANTIDADE
    }

    /** __init__: the first Brawler highlighted, no transition running. */
    constructor ()
      ensures Valid() && personagemSelecionado == 0 && ultimoSelecionado == 0
      ensures tempoTransicao == 0.0 && tempoAnimacao == 0.0 && animacaoSelecao == 0.0
    {
      personagens := PERSONAGENS_DISPONIVEIS;
      personagemSelecionado := 0;
      ultimoSelecionado := 0;
      tempoTransicao := 0.0;
      tempoAnimacao := 0.0;
      animacaoSelecao := 0.0;
    }

    /**
     * handle_selection_event: left/A and right/D move the highlight and
     * answer nothing; Enter/Space answer the highlighted Brawler; Escape
     * answers "voltar" and C "audio"; anything else answers nothing and
     * changes nothing. The highlight stays on a Brawler.
     */
    method HandleSelectionEvent(evento: Evento) returns (resposta: Option<string>)
      requires Valid()
      modifies this`personagemSelecionado
      ensures Valid()
      ensures personagemSelecionado ==
        (if evento == TeclaPressionada(Esquerda) || evento == TeclaPressionada(TeclaA)
         then Vizinho(old(personagemSelecionado), -1)
         else if evento == TeclaPressionada(Direita) || evento == TeclaPressionada(TeclaD)
         then Vizinho(old(personagemSelecionado), 1)
         else old(personagemSelecionado))
      ensures resposta ==
        (if evento == TeclaPressionada(Enter) || evento == TeclaPressionada(Espaco)
         then Some(personagens[old(personagemSelecionado)])
         else if evento == TeclaPressionada(Escape) then Some("voltar")
         else if evento == TeclaPressionada(TeclaC) then Some("audio")
         else None)
    {
      if evento.TeclaPressionada? {
        var t := evento.tecla;
        if t == Esquerda || t == TeclaA {
          personagemSelecionado := Vizinho(personagemSelecionado, -1);
          return None;
        } else if t == Direita || t == TeclaD {
          personagemSelecionado := Vizinho(personagemSelecionado, 1);
          return None;
        } else if t == Enter || t == Espaco {
          return Some(personagens[personagemSelecionado]);
        } else if t == Escape {
          return Some("voltar");
        } else if t == TeclaC {
          return Some("audio");
        }
      }
      return None;
    }

    /**
     * update, without the particles and the card's sine wobble: a change of
     * the highlighted card since the last update restarts the transition,
     * which then runs down while positive.
     */
    method Update(dt: real)
      modifies this`tempoAnimacao, this`tempoTransicao, this`ultimoSelecionado, this`animacaoSelecao
      ensures ultimoSelecionado == personagemSelecionado
      ensures tempoTransicao ==
        (if old(personagemSelecionado) != old(ultimoSelecionado) then DURACAO_TRANSICAO_CARD - dt
         else if old(tempoTransicao) > 0.0 then old(tempoTransicao) - dt
         else old(tempoTransicao))
      ensures tempoAnimacao == old(tempoAnimacao) + dt * 2.0
      ensures animacaoSelecao == old(animacaoSelecao) + dt * 4.0
    {
      tempoAnimacao := tempoAnimacao + dt * 2.0;
      if personagemSelecionado != ultimoSelecionado {
        tempoTransicao := DURACAO_TRANSICAO_CARD;
        ultimoSelecionado := personagemSelecionado;
      }
      if tempoTransicao > 0.0 {
        tempoTransicao := tempoTransicao - dt;
      }
      animacaoSelecao := animacaoSelecao + dt * 4.0;
    }
  }

  /** Six presses of the right key bring the highlight back to where it started. */
  lemma GiroCompleto(i: int)
    requires 0 <= i < QUANTIDADE
    ensures Girado(i, QUANTIDADE) == i
  {
    GiradoModulo(i, QUANTIDADE);
  }
}
