/**
 * src/super_system.py: the Super charge of a Brawler. Damage dealt and damage
 * received fill a charge capped at 100; a full charge makes the Super
 * available, using it empties the charge and starts its duration. The
 * charge particles and colours are visual and are not modelled.
 */
module Super {
  /** The per-Brawler rates of _configurar_taxas_carga; the colour is left out. */
  datatype Taxas = Taxas(cargaPorDano: int, cargaPorHit: int, duracaoSuper: real)

  const BRAWLERS_CONFIGURADOS: set<string> := {"Shelly", "Nita", "Colt", "Bull", "Barley", "Poco"}

  /** config_brawlers.get(nome, config_brawlers['Shelly']). */
  function TaxasDe(nome: string): Taxas
  {
    if nome == "Nita" then Taxas(15, 10, 15.0)
    else if nome == "Colt" then Taxas(12, 8, 0.0)
    else if nome == "Bull" then Taxas(20, 15, 0.5)
    else if nome == "Barley" then Taxas(14, 9, 3.0)
    else if nome == "Poco" then Taxas(16, 11, 0.0)
    else Taxas(18, 12, 0.0)
  }

  /**
   * Every rate is positive, damage dealt charges faster than damage received,
   * and an unknown name gets Shelly's table.
   */
  lemma TaxasDeSpec(nome: string)
    ensures var t := TaxasDe(nome);
      0 < t.cargaPorHit < t.cargaPorDano && t.duracaoSuper >= 0.0
    ensures nome !in BRAWLERS_CONFIGURADOS ==> TaxasDe(nome) == TaxasDe("Shelly")
  {
  }

  /** The charge one hit brings: dano / 100 times the rate. */
  function CargaGanha(dano: real, taxa: int): (c: real)
    ensures dano >= 0.0 && taxa >= 0 ==> c >= 0.0
  {
    (dano / 100.0) * taxa as real
  }

  class SuperSystem {
    const nome: string
    var cargaAtual: real
    const cargaMaxima: real
    var superDisponivel: bool
    var superAtivo: bool
    var tempoSuper: real
    const cargaPorDano: int
    const cargaPorHit: int
    const duracaoSuper: real
    var barraBrilho: real

    /**
     * The charge never passes its maximum, the Super is available exactly
     * when the charge is full, and the glow is never negative.
     */
    predicate Valid()
      reads this
    {
      cargaMaxima == 100.0 && cargaAtual <= cargaMaxima &&
      (superDisponivel <==> cargaAtual == cargaMaxima) &&
      0.0 <= barraBrilho &&
      Taxas(cargaPorDano, cargaPorHit, duracaoSuper) == TaxasDe(nome)
    }

    /** An empty charge, nothing available or active, and the rates of the name. */
    constructor (nome: string)
      ensures Valid() && this.nome == nome && cargaAtual == 0.0
      ensures !superDisponivel && !superAtivo && tempoSuper == 0.0 && barraBrilho == 0.0
    {
      this.nome := nome;
      cargaAtual := 0.0;
      cargaMaxima := 100.0;
      superDisponivel := false;
      superAtivo := false;
      tempoSuper := 0.0;
      var t := TaxasDe(nome);
      cargaPorDano := t.cargaPorDano;
      cargaPorHit := t.cargaPorHit;
      duracaoSuper := t.duracaoSuper;
      barraBrilho := 0.0;
    }

    /**
     * _adicionar_carga: the charge rises, capped at the maximum; reaching it
     * makes the Super available and lights the bar.
     */
    method AdicionarCarga(quantidade: real)
      requires Valid() && !superDisponivel
      modifies this`cargaAtual, this`superDisponivel, this`barraBrilho
      ensures Valid()
      ensures cargaAtual == (if old(cargaAtual) + quantidade < cargaMaxima then old(cargaAtual) + quantidade else cargaMaxima)
      ensures superDisponivel == (old(cargaAtual) + quantidade >= cargaMaxima)
      ensures barraBrilho == (if superDisponivel then 1.0 else old(barraBrilho))
      ensures old(cargaAtual) >= 0.0 && quantidade >= 0.0 ==> 0.0 <= cargaAtual
    {
      cargaAtual := if cargaAtual + quantidade < cargaMaxima then cargaAtual + quantidade else cargaMaxima;
      if !superDisponivel && cargaAtual >= cargaMaxima {
        superDisponivel := true;
        barraBrilho := 1.0;
      }
    }

    /** adicionar_carga_dano: nothing while the Super is available, else the damage dealt charges it. */
    method AdicionarCargaDano(danoCausado: real)
      requires Valid()
      modifies this`cargaAtual, this`superDisponivel, this`barraBrilho
      ensures Valid()
      ensures old(superDisponivel) ==> cargaAtual == old(cargaAtual) && superDisponivel && barraBrilho == old(barraBrilho)
      ensures !old(superDisponivel) ==>
        var c := old(cargaAtual) + CargaGanha(danoCausado, cargaPorDano);
        cargaAtual == (if c < cargaMaxima then c else cargaMaxima) && superDisponivel == (c >= cargaMaxima)
      ensures old(cargaAtual) >= 0.0 && danoCausado >= 0.0 ==> 0.0 <= cargaAtual
    {
      if superDisponivel {
        return;
      }
      AdicionarCarga(CargaGanha(danoCausado, cargaPorDano));
    }

    /** adicionar_carga_hit: the same with damage received and the smaller rate. */
    method AdicionarCargaHit(danoRecebido: real)
      requires Valid()
      modifies this`cargaAtual, this`superDisponivel, this`barraBrilho
      ensures Valid()
      ensures old(superDisponivel) ==> cargaAtual == old(cargaAtual) && superDisponivel && barraBrilho == old(barraBrilho)
      ensures !old(superDisponivel) ==>
        var c := old(cargaAtual) + CargaGanha(danoRecebido, cargaPorHit);
        cargaAtual == (if c < cargaMaxima then c else cargaMaxima) && superDisponivel == (c >= cargaMaxima)
      ensures old(cargaAtual) >= 0.0 && danoRecebido >= 0.0 ==> 0.0 <= cargaAtual
    {
      if superDisponivel {
        return;
      }
      AdicionarCarga(CargaGanha(danoRecebido, cargaPorHit));
    }

    /**
     * usar_super: false with nothing changed when the Super is not available;
     * otherwise it is consumed, becomes active for its duration and the
     * charge starts over from zero.
     */
    method UsarSuper() returns (ok: bool)
      requires Valid()
      modifies this`superDisponivel, this`superAtivo, this`cargaAtual, this`tempoSuper
      ensures Valid() && ok == old(superDisponivel)
      ensures !ok ==> superAtivo == old(superAtivo) && cargaAtual == old(cargaAtual) && tempoSuper == old(tempoSuper) && !superDisponivel
      ensures ok ==> !superDisponivel && superAtivo && cargaAtual == 0.0 && tempoSuper == duracaoSuper
    {
      if !superDisponivel {
        return false;
      }
      superDisponivel := false;
      superAtivo := true;
      cargaAtual := 0.0;
      tempoSuper := duracaoSuper;
      return true;
    }

    /**
     * update without the particles: an active Super with time left counts
     * down and ends at zero; the bar's glow fades at twice the frame time.
     */
    method Update(dt: real)
      requires Valid()
      modifies this`tempoSuper, this`superAtivo, this`barraBrilho
      ensures Valid()
      ensures old(superAtivo) && old(tempoSuper) > 0.0 ==>
        tempoSuper == old(tempoSuper) - dt && superAtivo == (tempoSuper > 0.0)
      ensures !(old(superAtivo) && old(tempoSuper) > 0.0) ==> tempoSuper == old(tempoSuper) && superAtivo == old(superAtivo)
      ensures barraBrilho == (if old(barraBrilho) > 0.0 then (if old(barraBrilho) - dt * 2.0 > 0.0 then old(barraBrilho) - dt * 2.0 else 0.0) else old(barraBrilho))
      ensures dt >= 0.0 ==> barraBrilho <= old(barraBrilho)
    {
      if superAtivo && tempoSuper > 0.0 {
        tempoSuper := tempoSuper - dt;
        if tempoSuper <= 0.0 {
          superAtivo := false;
        }
      }
      if barraBrilho > 0.0 {
        barraBrilho := barraBrilho - dt * 2.0;
        barraBrilho := if barraBrilho > 0.0 then barraBrilho else 0.0;
      }
    }

    /** obter_progresso: the fraction of the charge filled. */
    function ObterProgresso(): (p: real)
      requires Valid()
      reads this
      ensures cargaAtual >= 0.0 ==> 0.0 <= p <= 1.0
      ensures p == 1.0 <==> superDisponivel
    {
      cargaAtual / cargaMaxima
    }
  }

  /**
   * A Super of duration 0 (Shelly, Colt, Poco) never stops being active:
   * update only counts down a positive time.
   */
  method SuperInstantaneoFicaAtivo(s: SuperSystem, dt: real)
    requires s.Valid() && s.superDisponivel && s.duracaoSuper == 0.0
    modifies s
    ensures s.Valid() && s.superAtivo && !s.superDisponivel
  {
    var ok := s.UsarSuper();
    s.Update(dt);
  }
}
