/**
 * src/achievement_system.py: achievements unlocked once, when their
 * criterion holds for the game's context, and the system that checks them
 * in registration order. The context is a dict of game counters and the
 * criterion any function of it.
 */
module Achievements {
  type Contexto = map<string, int>

  class Conquista {
    const nome: string
    const descricao: string
    const criterio: Contexto -> bool
    var alcancada: bool

    constructor (nome: string, descricao: string, criterio: Contexto -> bool)
      ensures this.nome == nome && this.descricao == descricao && this.criterio == criterio && !alcancada
    {
      this.nome := nome;
      this.descricao := descricao;
      this.criterio := criterio;
      alcancada := false;
    }

    /**
     * verificar: true exactly when the achievement was not reached yet and
     * the criterion holds now, and then it is reached; once reached it
     * stays reached and the criterion is not looked at again.
     */
    method Verificar(contexto: Contexto) returns (r: bool)
      modifies this`alcancada
      ensures r == (!old(alcancada) && criterio(contexto))
      ensures alcancada == (old(alcancada) || criterio(contexto))
      ensures old(alcancada) ==> !r && alcancada
    {
      if !alcancada && criterio(contexto) {
        alcancada := true;
        return true;
      }
      return false;
    }
  }

  /**
   * The achievements of cs that one round of checks against the context
   * unlocks, in order: those not reached, met by the context, and not
   * already listed earlier in cs (a repeated entry was unlocked by its
   * first occurrence).
   */
  function Desbloqueadas(cs: seq<Conquista>, contexto: Contexto): (d: seq<Conquista>)
    reads set c | c in cs
    ensures |d| <= |cs|
    ensures forall i :: 0 <= i < |d| ==> d[i] in cs && !d[i].alcancada && d[i].criterio(contexto)
  {
    if cs == [] then []
    else
      var c := cs[|cs| - 1];
      var antes := cs[..|cs| - 1];
      Desbloqueadas(antes, contexto) +
        (if !c.alcancada && c !in antes && c.criterio(contexto) then [c] else [])
  }

  /** Every achievement of cs that was not reached and whose criterion holds is in the round's list. */
  lemma {:induction false} DesbloqueadasCompleta(cs: seq<Conquista>, contexto: Contexto, i: int)
    requires 0 <= i < |cs| && !cs[i].alcancada && cs[i].criterio(contexto)
    ensures cs[i] in Desbloqueadas(cs, contexto)
  {
    var antes := cs[..|cs| - 1];
    if i < |cs| - 1 {
      DesbloqueadasCompleta(antes, contexto, i);
    } else if cs[i] in antes {
      var j :| 0 <= j < |antes| && antes[j] == cs[i];
      DesbloqueadasCompleta(antes, contexto, j);
    }
  }

  class SistemaConquistas {
    var conquistas: seq<Conquista>

    constructor ()
      ensures conquistas == []
    {
      conquistas := [];
    }

    /** adicionar_conquista: appended after every achievement already registered. */
    method AdicionarConquista(conquista: Conquista)
      modifies this`conquistas
      ensures conquistas == old(conquistas) + [conquista]
    {
      conquistas := conquistas + [conquista];
    }

    /**
     * verificar_conquistas: each achievement checked in order; the result is
     * exactly the ones unlocked now, and every registered achievement is
     * reached afterwards iff it was before or its criterion holds.
     */
    method VerificarConquistas(contexto: Contexto) returns (desbloqueadas: seq<Conquista>)
      modifies set c | c in conquistas
      ensures desbloqueadas == old(Desbloqueadas(conquistas, contexto))
      ensures forall c :: c in conquistas ==> c.alcancada == (old(c.alcancada) || c.criterio(contexto))
    {
      desbloqueadas := [];
      var i := 0;
      while i < |conquistas|
        invariant 0 <= i <= |conquistas|
        invariant desbloqueadas == old(Desbloqueadas(conquistas[..i], contexto))
        invariant forall j :: 0 <= j < i ==>
          conquistas[j].alcancada == (old(conquistas[j].alcancada) || conquistas[j].criterio(contexto))
        invariant forall c :: c in conquistas && c !in conquistas[..i] ==> c.alcancada == old(c.alcancada)
      {
        var conquista := conquistas[i];
        assert conquistas[..i + 1][..i] == conquistas[..i];
        var r := conquista.Verificar(contexto);
        if r {
          desbloqueadas := desbloqueadas + [conquista];
        }
        assert forall c :: c in conquistas[..i + 1] <==> c in conquistas[..i] || c == conquista;
        i := i + 1;
      }
      assert conquistas[..i] == conquistas;
    }
  }

  /**
   * checked against any sequence of contexts, an achievement is reported at
   * most once, and once exactly when it was not reached and some context
   * meets its criterion.
   */
  method VerificarEmSequencia(c: Conquista, contextos: seq<Contexto>) returns (vezes: nat)
    modifies c`alcancada
    ensures vezes <= 1
    ensures vezes == 1 <==> !old(c.alcancada) && exists i :: 0 <= i < |contextos| && c.criterio(contextos[i])
    ensures c.alcancada == (old(c.alcancada) || exists i :: 0 <= i < |contextos| && c.criterio(contextos[i]))
  {
    vezes := 0;
    var i := 0;
    while i < |contextos|
      invariant 0 <= i <= |contextos| && vezes <= 1
      invariant c.alcancada == (old(c.alcancada) || exists j :: 0 <= j < i && c.criterio(contextos[j]))
      invariant vezes == 1 <==> !old(c.alcancada) && exists j :: 0 <= j < i && c.criterio(contextos[j])
    {
      var r := c.Verificar(contextos[i]);
      if r {
        vezes := vezes + 1;
      }
      i := i + 1;
    }
  }
}
