/**
 * src/characters/personagens.py: the six playable Brawlers, their fixed
 * statistics, and the special ability each one carries with its cooldown.
 * Sprites, colours and the 3D drawing are visual and are not modelled.
 */
module Characters {
  import opened Geometry

  /** VELOCIDADE_JOGADOR and COOLDOWN_TIRO (src/config.py). */
  const VELOCIDADE_JOGADOR: real := 300.0
  const COOLDOWN_TIRO: real := 0.3

  /** Which bound method a Brawler's habilidade_especial is. */
  datatype Habilidade =
    | HabSuperShell | HabInvocarUrso | HabRajadaBalas | HabInvestida | HabChuvaGarrafas | HabMelodiaCurativa

  /** The dict an ability returns, one variant per 'tipo'; the 'descricao' text is left out. */
  datatype Resultado =
    | SuperShellR(dano: int, alcance: real)
    | InvocarUrsoR(duracao: real)
    | RajadaBalasR(quantidade: int, intervalo: real)
    | InvestidaR(velocidadeBonus: real, duracao: real, danoContato: int)
    | ChuvaGarrafasR(quantidade: int, areaDano: int, duracaoArea: real)
    | MelodiaCurativaR(cura: int, raio: int)

  /** The arguments each subclass passes to PersonagemBase, with its ability and cooldown_habilidade_max. */
  datatype Ficha = Ficha(nome: string, vida: int, velocidade: real, dano: int, cooldown: real,
                         tipoTiro: string, habilidade: Habilidade, cooldownHabilidadeMax: real)

  /** PERSONAGENS_DISPONIVEIS, in the dict's insertion order (what listar_personagens returns). */
  const PERSONAGENS_DISPONIVEIS: seq<string> := ["Shelly", "Nita", "Colt", "Bull", "Barley", "Poco"]

  function FichaShelly(): Ficha
  {
    Ficha("Shelly", 120, VELOCIDADE_JOGADOR, 35, COOLDOWN_TIRO * 1.2, "shelly", HabSuperShell, 8.0)
  }

  /**
   * obter_personagem: the Brawler of that name, and Shelly for any name
   * that is not one of the six. Every statistic is positive.
   */
  function FichaDe(nome: string): (f: Ficha)
    ensures f.nome in PERSONAGENS_DISPONIVEIS
    ensures nome in PERSONAGENS_DISPONIVEIS <==> f.nome == nome
    ensures nome !in PERSONAGENS_DISPONIVEIS ==> f == FichaShelly()
    ensures f.vida > 0 && f.velocidade > 0.0 && f.dano > 0 && f.cooldown > 0.0 && f.cooldownHabilidadeMax > 0.0
  {
    if nome == "Nita" then Ficha("Nita", 140, VELOCIDADE_JOGADOR * 0.9, 28, COOLDOWN_TIRO * 0.8, "nita", HabInvocarUrso, 12.0)
    else if nome == "Colt" then Ficha("Colt", 100, VELOCIDADE_JOGADOR * 1.1, 32, COOLDOWN_TIRO * 0.6, "colt", HabRajadaBalas, 10.0)
    else if nome == "Bull" then Ficha("Bull", 180, VELOCIDADE_JOGADOR * 0.8, 40, COOLDOWN_TIRO * 1.4, "bull", HabInvestida, 8.0)
    else if nome == "Barley" then Ficha("Barley", 90, VELOCIDADE_JOGADOR * 0.9, 25, COOLDOWN_TIRO * 1.1, "arco", HabChuvaGarrafas, 9.0)
    else if nome == "Poco" then Ficha("Poco", 110, VELOCIDADE_JOGADOR * 0.95, 20, COOLDOWN_TIRO * 0.9, "ondas", HabMelodiaCurativa, 7.0)
    else FichaShelly()
  }

  /** The six Brawlers carry six different abilities, so the ability identifies the Brawler. */
  lemma HabilidadeIdentifica(a: string, b: string)
    requires a in PERSONAGENS_DISPONIVEIS && b in PERSONAGENS_DISPONIVEIS
    ensures FichaDe(a).habilidade == FichaDe(b).habilidade <==> a == b
  {
  }

  /** What each ability method returns when it fires, given the Brawler's base damage. */
  function ResultadoDe(h: Habilidade, dano: int): (r: Resultado)
    ensures r.SuperShellR? <==> h == HabSuperShell
    ensures r.SuperShellR? ==> r.dano == 2 * dano
  {
    match h
    case HabSuperShell => SuperShellR(dano * 2, 1.5)
    case HabInvocarUrso => InvocarUrsoR(15.0)
    case HabRajadaBalas => RajadaBalasR(6, 0.1)
    case HabInvestida => InvestidaR(2.0, 2.0, 80)
    case HabChuvaGarrafas => ChuvaGarrafasR(5, 80, 4.0)
    case HabMelodiaCurativa => MelodiaCurativaR(60, 150)
  }

  class Personagem {
    const nome: string
    const vidaMaxima: int
    const velocidade: real
    const dano: int
    const cooldown: real
    const tipoTiro: string
    const habilidade: Habilidade
    const cooldownHabilidadeMax: real
    var vida: int
    var cooldownHabilidade: real
    var duracaoHabilidade: real
    /** Only Nita's constructor creates urso_ativo; the other Brawlers never read it. */
    var ursoAtivo: bool

    function FichaAtual(): Ficha
    {
      Ficha(nome, vidaMaxima, velocidade, dano, cooldown, tipoTiro, habilidade, cooldownHabilidadeMax)
    }

    /** The statistics are those of one of the six Brawlers, under its own name. */
    predicate Valid()
    {
      FichaAtual() == FichaDe(nome)
    }

    /** obter_personagem(nome): a fresh Brawler at full health with its ability ready. */
    constructor (nome: string)
      ensures Valid() && FichaAtual() == FichaDe(nome)
      ensures vida == vidaMaxima && cooldownHabilidade == 0.0 && duracaoHabilidade == 0.0 && !ursoAtivo
    {
      var f := FichaDe(nome);
      this.nome := f.nome;
      vidaMaxima := f.vida;
      velocidade := f.velocidade;
      dano := f.dano;
      cooldown := f.cooldown;
      tipoTiro := f.tipoTiro;
      habilidade := f.habilidade;
      cooldownHabilidadeMax := f.cooldownHabilidadeMax;
      vida := f.vida;
      cooldownHabilidade := 0.0;
      duracaoHabilidade := 0.0;
      ursoAtivo := false;
    }

    /**
     * The shape shared by the five abilities other than invocar_urso: a
     * result exactly when the cooldown has run out, and then the cooldown
     * restarts from its maximum; otherwise nothing changes.
     */
    method Disparar() returns (r: Option<Resultado>)
      modifies this`cooldownHabilidade
      ensures r.Some? <==> old(cooldownHabilidade) <= 0.0
      ensures r.Some? ==> r.value == ResultadoDe(habilidade, dano) && cooldownHabilidade == cooldownHabilidadeMax
      ensures r.None? ==> cooldownHabilidade == old(cooldownHabilidade)
    {
      if cooldownHabilidade <= 0.0 {
        cooldownHabilidade := cooldownHabilidadeMax;
        return Some(ResultadoDe(habilidade, dano));
      }
      return None;
    }

    /** Shelly's super_shell: a shot of twice the base damage. */
    method SuperShell() returns (r: Option<Resultado>)
      requires habilidade == HabSuperShell
      modifies this`cooldownHabilidade
      ensures r.Some? <==> old(cooldownHabilidade) <= 0.0
      ensures r.Some? ==> r.value == SuperShellR(2 * dano, 1.5) && cooldownHabilidade == cooldownHabilidadeMax
      ensures r.None? ==> cooldownHabilidade == old(cooldownHabilidade)
    {
      r := Disparar();
    }

    /**
     * Nita's invocar_urso: also needs no bear out, and summons one.
     * Nothing in the file sends the bear back, so it fires at most once.
     */
    method InvocarUrso() returns (r: Option<Resultado>)
      requires habilidade == HabInvocarUrso
      modifies this`cooldownHabilidade, this`ursoAtivo
      ensures r.Some? <==> old(cooldownHabilidade) <= 0.0 && !old(ursoAtivo)
      ensures r.Some? ==> r.value == InvocarUrsoR(15.0) && cooldownHabilidade == cooldownHabilidadeMax && ursoAtivo
      ensures r.None? ==> cooldownHabilidade == old(cooldownHabilidade) && ursoAtivo == old(ursoAtivo)
    {
      if cooldownHabilidade <= 0.0 && !ursoAtivo {
        cooldownHabilidade := cooldownHabilidadeMax;
        ursoAtivo := true;
        return Some(InvocarUrsoR(15.0));
      }
      return None;
    }

    /** Colt's rajada_balas: six shots 0.1 s apart. */
    method RajadaBalas() returns (r: Option<Resultado>)
      requires habilidade == HabRajadaBalas
      modifies this`cooldownHabilidade
      ensures r.Some? <==> old(cooldownHabilidade) <= 0.0
      ensures r.Some? ==> r.value == RajadaBalasR(6, 0.1) && cooldownHabilidade == cooldownHabilidadeMax
      ensures r.None? ==> cooldownHabilidade == old(cooldownHabilidade)
    {
      r := Disparar();
    }

    /** Bull's investida: double speed for two seconds. */
    method Investida() returns (r: Option<Resultado>)
      requires habilidade == HabInvestida
      modifies this`cooldownHabilidade
      ensures r.Some? <==> old(cooldownHabilidade) <= 0.0
      ensures r.Some? ==> r.value == InvestidaR(2.0, 2.0, 80) && cooldownHabilidade == cooldownHabilidadeMax
      ensures r.None? ==> cooldownHabilidade == old(cooldownHabilidade)
    {
      r := Disparar();
    }

    /** Barley's chuva_garrafas: five bottles over an area. */
    method ChuvaGarrafas() returns (r: Option<Resultado>)
      requires habilidade == HabChuvaGarrafas
      modifies this`cooldownHabilidade
      ensures r.Some? <==> old(cooldownHabilidade) <= 0.0
      ensures r.Some? ==> r.value == ChuvaGarrafasR(5, 80, 4.0) && cooldownHabilidade == cooldownHabilidadeMax
      ensures r.None? ==> cooldownHabilidade == old(cooldownHabilidade)
    {
      r := Disparar();
    }

    /** Poco's melodia_curativa: heals 60. */
    method MelodiaCurativa() returns (r: Option<Resultado>)
      requires habilidade == HabMelodiaCurativa
      modifies this`cooldownHabilidade
      ensures r.Some? <==> old(cooldownHabilidade) <= 0.0
      ensures r.Some? ==> r.value == MelodiaCurativaR(60, 150) && cooldownHabilidade == cooldownHabilidadeMax
      ensures r.None? ==> cooldownHabilidade == old(cooldownHabilidade)
    {
      r := Disparar();
    }

    /**
     * usar_habilidade_especial: nothing while the cooldown runs; otherwise
     * the Brawler's own ability decides, and a result always restarts the
     * cooldown from its maximum.
     */
    method UsarHabilidadeEspecial() returns (r: Option<Resultado>)
      modifies this`cooldownHabilidade, this`ursoAtivo
      ensures old(cooldownHabilidade) > 0.0 ==> r.None? && cooldownHabilidade == old(cooldownHabilidade)
      ensures r.Some? <==> old(cooldownHabilidade) <= 0.0 && (habilidade == HabInvocarUrso ==> !old(ursoAtivo))
      ensures r.Some? ==> r.value == ResultadoDe(habilidade, dano) && cooldownHabilidade == cooldownHabilidadeMax
      ensures r.None? ==> cooldownHabilidade == old(cooldownHabilidade)
      ensures ursoAtivo == (old(ursoAtivo) || (r.Some? && habilidade == HabInvocarUrso))
    {
      if cooldownHabilidade <= 0.0 {
        match habilidade
        case HabSuperShell => r := SuperShell();
        case HabInvocarUrso => r := InvocarUrso();
        case HabRajadaBalas => r := RajadaBalas();
        case HabInvestida => r := Investida();
        case HabChuvaGarrafas => r := ChuvaGarrafas();
        case HabMelodiaCurativa => r := MelodiaCurativa();
      } else {
        r := None;
      }
    }

    /** atualizar_cooldowns: each timer counts down only while it is positive. */
    method AtualizarCooldowns(dt: real)
      modifies this`cooldownHabilidade, this`duracaoHabilidade
      ensures cooldownHabilidade == (if old(cooldownHabilidade) > 0.0 then old(cooldownHabilidade) - dt else old(cooldownHabilidade))
      ensures duracaoHabilidade == (if old(duracaoHabilidade) > 0.0 then old(duracaoHabilidade) - dt else old(duracaoHabilidade))
      ensures dt >= old(cooldownHabilidade) ==> cooldownHabilidade <= 0.0
      ensures dt >= 0.0 ==> cooldownHabilidade <= old(cooldownHabilidade)
    {
      if cooldownHabilidade > 0.0 {
        cooldownHabilidade := cooldownHabilidade - dt;
      }
      if duracaoHabilidade > 0.0 {
        duracaoHabilidade := duracaoHabilidade - dt;
      }
    }
  }

  /**
   * Without atualizar_cooldowns in between, a second use of the ability
   * right after one that fired never fires: the cooldown's maximum is
   * positive for every Brawler.
   */
  method UsarDuasVezes(p: Personagem) returns (primeira: Option<Resultado>, segunda: Option<Resultado>)
    requires p.Valid()
    modifies p
    ensures primeira.Some? ==> segunda.None?
  {
    primeira := p.UsarHabilidadeEspecial();
    segunda := p.UsarHabilidadeEspecial();
  }
}
