/**
 * src/sistema_progressao.py: a Brawler's experience, level, trophies, match
 * counters, statistics and Star Powers, and the system that keeps one record
 * per Brawler name. Saving and loading the JSON file are left out: the
 * system starts with no records.
 */
module Progression {
  import opened Geometry
  import opened Seqs

  const NIVEL_MAXIMO: int := 10
  const EXP_POR_NIVEL: int := 100

  /** The keys of `estatisticas`, all starting at 0. */
  const CHAVES_ESTATISTICAS: set<string> :=
    {"dano_total_causado", "dano_total_recebido", "inimigos_eliminados", "gemas_coletadas", "tempo_sobrevivencia_total"}

  lemma SquareMonotone(a: nat, b: nat)
    requires a <= b
    ensures a * a <= b * b
  {
  }

  lemma IsqrtStep(n: nat, t: nat)
    requires t * t <= n / 4 < (t + 1) * (t + 1)
    ensures (2 * t) * (2 * t) <= n < (2 * t + 2) * (2 * t + 2)
  {
    assert (2 * t) * (2 * t) == 4 * (t * t);
    assert (2 * t + 2) * (2 * t + 2) == 4 * ((t + 1) * (t + 1));
  }

  /** Between s and s + 2, the root is s + 1 exactly when its square still fits. */
  lemma IsqrtChoice(n: nat, s: nat)
    requires s * s <= n < (s + 2) * (s + 2)
    ensures (s + 1) * (s + 1) <= n ==> n < (s + 1 + 1) * (s + 1 + 1)
    ensures !((s + 1) * (s + 1) <= n) ==> n < (s + 1) * (s + 1)
  {
  }

  /** The integer square root: the largest r with r * r <= n. */
  function Isqrt(n: nat): (r: nat)
    ensures r * r <= n < (r + 1) * (r + 1)
  {
    if n == 0 then 0
    else
      var t := Isqrt(n / 4);
      IsqrtStep(n, t);
      IsqrtChoice(n, 2 * t);
      if (2 * t + 1) * (2 * t + 1) <= n then 2 * t + 1 else 2 * t
  }

  /** Only one r satisfies the square-root bounds. */
  lemma IsqrtUnique(n: nat, k: nat)
    requires k * k <= n < (k + 1) * (k + 1)
    ensures Isqrt(n) == k
  {
    var r := Isqrt(n);
    if r < k {
      SquareMonotone(r + 1, k);
    } else if r > k {
      SquareMonotone(k + 1, r);
    }
  }

  /** Squares order their non-negative roots. */
  lemma SquareLess(x: nat, y: nat)
    requires x * x < y * y
    ensures x < y
  {
    if y <= x {
      SquareMonotone(y, x);
    }
  }

  lemma IsqrtMonotone(a: nat, b: nat)
    requires a <= b
    ensures Isqrt(a) <= Isqrt(b)
  {
    var ra, rb := Isqrt(a), Isqrt(b);
    SquareLess(ra, rb + 1);
  }

  /**
   * _calcular_nivel: 1 below 100 experience, else min(10, int(sqrt(exp / 100)) + 1).
   * For exp >= 0 the floor of the square root of exp / 100 is the integer
   * square root of exp div 100 (see NivelRaiz).
   */
  function NivelDe(exp: int): (n: int)
    ensures 1 <= n <= NIVEL_MAXIMO
  {
    if exp < EXP_POR_NIVEL then 1 else Min(NIVEL_MAXIMO, Isqrt(exp / EXP_POR_NIVEL) + 1)
  }

  /**
   * The level from 100 experience on is one more than the k with
   * k^2 <= exp / 100 < (k + 1)^2, that is the floor of the square root, capped at 10.
   */
  lemma NivelRaiz(exp: int, k: nat)
    requires exp >= EXP_POR_NIVEL
    requires k * k * EXP_POR_NIVEL <= exp < (k + 1) * (k + 1) * EXP_POR_NIVEL
    ensures NivelDe(exp) == Min(NIVEL_MAXIMO, k + 1)
  {
    var q := exp / EXP_POR_NIVEL;
    assert k * k <= q < (k + 1) * (k + 1);
    IsqrtUnique(q, k);
  }

  /** More experience never means a lower level. */
  lemma NivelMonotone(a: int, b: int)
    requires a <= b
    ensures NivelDe(a) <= NivelDe(b)
  {
    if a >= EXP_POR_NIVEL {
      IsqrtMonotone(a / EXP_POR_NIVEL, b / EXP_POR_NIVEL);
    }
  }

  /** experiencia_necessaria_proximo_nivel: 0 at the top level, else max(0, nivel^2 * 100 - exp). */
  function ExpProximoNivel(nivel: int, exp: int): (r: int)
    ensures r >= 0
    ensures nivel >= NIVEL_MAXIMO ==> r == 0
  {
    if nivel >= NIVEL_MAXIMO then 0
    else Max(0, nivel * nivel * EXP_POR_NIVEL - exp)
  }

  lemma NextLevelArith(exp: int, m: int)
    requires exp >= EXP_POR_NIVEL && exp / EXP_POR_NIVEL < m
    ensures exp < m * EXP_POR_NIVEL && (m * EXP_POR_NIVEL) / EXP_POR_NIVEL == m
    ensures (m * EXP_POR_NIVEL - 1) / EXP_POR_NIVEL == m - 1
  {
  }

  lemma SquareNeighbours(k: nat)
    ensures (k + 1) * (k + 1) < (k + 2) * (k + 2)
    ensures k * k <= (k + 1) * (k + 1) - 1
  {
    assert (k + 2) * (k + 2) == (k + 1) * (k + 1) + 2 * k + 3;
    assert (k + 1) * (k + 1) == k * k + 2 * k + 1;
  }

  /**
   * For a Brawler whose level matches its experience, below the top level,
   * the missing experience is exactly what reaches the next level: one
   * point less stays at the current level.
   */
  lemma ExpProximoNivelAlcanca(exp: int)
    requires NivelDe(exp) < NIVEL_MAXIMO
    ensures var n := NivelDe(exp);
      var r := ExpProximoNivel(n, exp);
      r > 0 && NivelDe(exp + r) == n + 1 && NivelDe(exp + r - 1) == n
  {
    if exp < EXP_POR_NIVEL {
      IsqrtUnique(1, 1);
    } else {
      var n := NivelDe(exp);
      var m := n * n;
      ExpProximoNivelAlto(exp, n, m);
      NiveisDoQuadrado(n - 1, m);
      NivelNaFronteira(exp, ExpProximoNivel(n, exp), m * EXP_POR_NIVEL, n);
    }
  }

  /** From 100 points on, below the top level, the missing experience is what reaches n^2 hundred points. */
  lemma ExpProximoNivelAlto(exp: int, n: int, m: int)
    requires exp >= EXP_POR_NIVEL && n == NivelDe(exp) && n < NIVEL_MAXIMO && m == n * n
    ensures n >= 2 && ExpProximoNivel(n, exp) == m * EXP_POR_NIVEL - exp > 0
  {
    var k := Isqrt(exp / EXP_POR_NIVEL);
    assert n == k + 1;
    NextLevelArith(exp, m);
  }

  /** m = (k + 1)^2 hundred points are level k + 2; one point less is level k + 1. */
  lemma NiveisDoQuadrado(k: nat, m: int)
    requires m == (k + 1) * (k + 1) && 1 <= k && k + 1 < NIVEL_MAXIMO
    ensures m >= 1 && NivelDe(m * EXP_POR_NIVEL) == k + 2 && NivelDe(m * EXP_POR_NIVEL - 1) == k + 1
  {
    SquareNeighbours(k);
    RaizDoQuadrado(k, m);
    RaizAntesDoQuadrado(k, m);
    NivelCentena(m, k + 1);
    NivelQuaseCentena(m, k);
  }

  lemma RaizDoQuadrado(k: nat, m: int)
    requires m == (k + 1) * (k + 1) && m < (k + 2) * (k + 2)
    ensures Isqrt(m) == k + 1
  {
    IsqrtUnique(m, k + 1);
  }

  lemma RaizAntesDoQuadrado(k: nat, m: int)
    requires m == (k + 1) * (k + 1) && k * k <= m - 1
    ensures Isqrt(m - 1) == k
  {
    IsqrtUnique(m - 1, k);
  }

  /** Reaching e points exactly: one point less is the level just below. */
  lemma NivelNaFronteira(exp: int, r: int, e: int, n: int)
    requires r == e - exp && NivelDe(e) == n + 1 && NivelDe(e - 1) == n
    ensures NivelDe(exp + r) == n + 1 && NivelDe(exp + r - 1) == n
  {
    assert exp + r == e;
  }

  lemma NivelCentena(m: int, j: nat)
    requires m >= 1 && Isqrt(m) == j
    ensures NivelDe(m * EXP_POR_NIVEL) == Min(NIVEL_MAXIMO, j + 1)
  {
    assert (m * EXP_POR_NIVEL) / EXP_POR_NIVEL == m;
  }

  lemma NivelQuaseCentena(m: int, j: nat)
    requires m >= 2 && Isqrt(m - 1) == j
    ensures NivelDe(m * EXP_POR_NIVEL - 1) == Min(NIVEL_MAXIMO, j + 1)
  {
    assert (m * EXP_POR_NIVEL - 1) / EXP_POR_NIVEL == m - 1;
  }

  /** calcular_trofeus_partida: max(8, 15 - nivel) on a win, max(5, 10 - nivel // 2) on a loss. */
  function TrofeusPartida(vitoria: bool, nivel: int): (t: int)
    ensures vitoria ==> t >= 8
    ensures !vitoria ==> t >= 5
  {
    if vitoria then Max(8, 15 - nivel) else Max(5, 10 - nivel / 2)
  }

  /** Over the levels 1..10 a win is worth 8 to 14 trophies and a loss costs 5 to 10. */
  lemma TrofeusFaixa(vitoria: bool, nivel: int)
    requires 1 <= nivel <= NIVEL_MAXIMO
    ensures vitoria ==> 8 <= TrofeusPartida(vitoria, nivel) <= 14
    ensures !vitoria ==> 5 <= TrofeusPartida(vitoria, nivel) <= 10
  {
  }

  /** Higher levels win and lose fewer trophies. */
  lemma TrofeusDecrescem(vitoria: bool, a: int, b: int)
    requires a <= b
    ensures TrofeusPartida(vitoria, b) <= TrofeusPartida(vitoria, a)
  {
  }

  /** Python's int(a / d) for integers: the quotient truncated toward zero. */
  function QuocienteTruncado(a: int, d: int): (q: int)
    requires d > 0
    ensures a >= 0 ==> q * d <= a < (q + 1) * d
    ensures a < 0 ==> (q - 1) * d < a <= q * d
  {
    if a >= 0 then a / d else -((-a) / d)
  }

  /**
   * calcular_experiencia_partida: 50 for a win or 25 for a loss, one point per
   * 10 seconds and per 50 damage (Python's int() of the quotient), 10 per
   * kill and 5 per gem.
   */
  function ExperienciaPartida(vitoria: bool, tempo: real, dano: int, kills: int, gemas: int): int
  {
    (if vitoria then 50 else 25) + Trunc(tempo / 10.0) + QuocienteTruncado(dano, 50) + kills * 10 + gemas * 5
  }

  /**
   * A win is worth exactly 25 more than a loss, and with nothing negative
   * passed in a match is worth at least its base and more with every kill.
   */
  lemma ExperienciaPartidaSpec(vitoria: bool, tempo: real, dano: int, kills: int, gemas: int)
    ensures ExperienciaPartida(true, tempo, dano, kills, gemas) == ExperienciaPartida(false, tempo, dano, kills, gemas) + 25
    ensures tempo >= 0.0 && dano >= 0 && kills >= 0 && gemas >= 0 ==>
      ExperienciaPartida(vitoria, tempo, dano, kills, gemas) >= (if vitoria then 50 else 25) &&
      ExperienciaPartida(vitoria, tempo, dano, kills + 1, gemas) == ExperienciaPartida(vitoria, tempo, dano, kills, gemas) + 10
  {
  }

  /** The Star Powers of each known Brawler: name, effect and level needed. */
  function TabelaStarPowers(nome: string): seq<(string, string, int)>
  {
    if nome == "Shelly" then [("Shell Shock", "slow", 7), ("Band-Aid", "heal", 9)]
    else if nome == "Nita" then [("Bear With Me", "heal", 7), ("Hyper Bear", "attack_speed", 9)]
    else if nome == "Colt" then [("Slick Boots", "speed", 7), ("Magnum Special", "range", 9)]
    else if nome == "Bull" then [("Berserker", "rage", 7), ("Tough Guy", "defense", 9)]
    else if nome == "Barley" then [("Medical Use", "heal", 7), ("Extra Noxious", "duration", 9)]
    else if nome == "Poco" then [("Da Capo!", "heal", 7), ("Screeching Solo", "damage", 9)]
    else []
  }

  const BRAWLERS_COM_STAR_POWERS: set<string> := {"Shelly", "Nita", "Colt", "Bull", "Barley", "Poco"}

  /** Each of the six Brawlers has two Star Powers, at levels 7 and 9; any other name has none. */
  lemma TabelaStarPowersSpec(nome: string)
    ensures var t := TabelaStarPowers(nome);
      (nome in BRAWLERS_COM_STAR_POWERS ==> |t| == 2 && t[0].2 == 7 && t[1].2 == 9) &&
      (nome !in BRAWLERS_COM_STAR_POWERS ==> t == [])
  {
  }

  /** registrar_partida's loop over kwargs: each statistic already kept accumulates its value; other keys are ignored. */
  function Acumular(est: map<string, int>, kwargs: map<string, int>): (r: map<string, int>)
  {
    map k | k in est :: est[k] + (if k in kwargs then kwargs[k] else 0)
  }

  /**
   * Accumulating keeps exactly the statistics already kept, adds every
   * value given for one of them, and ignores the keys it does not keep.
   */
  lemma AcumularSpec(est: map<string, int>, kwargs: map<string, int>)
    ensures Acumular(est, kwargs).Keys == est.Keys
    ensures forall k :: k in est && k in kwargs ==> Acumular(est, kwargs)[k] == est[k] + kwargs[k]
    ensures forall k :: k in est && k !in kwargs ==> Acumular(est, kwargs)[k] == est[k]
    ensures (forall k :: k in kwargs ==> k !in est) ==> Acumular(est, kwargs) == est
  {
  }

  /** The entries of kw whose keys are in ks. */
  function Restringir(kw: map<string, int>, ks: set<string>): map<string, int>
  {
    map k | k in kw && k in ks :: kw[k]
  }

  /** Accumulating one more key of kwargs onto the keys already accumulated. */
  lemma AcumularPasso(est: map<string, int>, kw: map<string, int>, feitas: set<string>, stat: string)
    requires stat in kw && stat !in feitas
    ensures var a := Acumular(est, Restringir(kw, feitas));
      Acumular(est, Restringir(kw, feitas + {stat})) == if stat in a then a[stat := a[stat] + kw[stat]] else a
  {
  }

  /** Moving one key from the keys still to do to the keys done keeps the two a split of kwargs' keys. */
  lemma TrocarChave(restantes: set<string>, feitas: set<string>, stat: string)
    requires stat in restantes && restantes !! feitas
    ensures (restantes - {stat}) + (feitas + {stat}) == restantes + feitas
    ensures (restantes - {stat}) !! (feitas + {stat})
  {
  }

  /** One round of registrar_partida's loop: the statistic named stat accumulates its value if it is kept. */
  method AcumularUma(est0: map<string, int>, kwargs: map<string, int>, feitas: set<string>, stat: string,
                     est: map<string, int>) returns (r: map<string, int>)
    requires stat in kwargs && stat !in feitas
    requires est == Acumular(est0, Restringir(kwargs, feitas))
    ensures r == Acumular(est0, Restringir(kwargs, feitas + {stat}))
  {
    AcumularPasso(est0, kwargs, feitas, stat);
    r := est;
    if stat in r {
      r := r[stat := r[stat] + kwargs[stat]];
    }
  }

  /** registrar_partida's loop: the kwargs taken one key at a time, in any order. */
  method AcumularKwargs(est0: map<string, int>, kwargs: map<string, int>) returns (est: map<string, int>)
    ensures est == Acumular(est0, kwargs)
  {
    est := est0;
    var restantes := kwargs.Keys;
    var feitas: set<string> := {};
    while restantes != {}
      invariant restantes + feitas == kwargs.Keys && restantes !! feitas
      invariant est == Acumular(est0, Restringir(kwargs, feitas))
      decreases |restantes|
    {
      var stat :| stat in restantes;
      est := AcumularUma(est0, kwargs, feitas, stat, est);
      TrocarChave(restantes, feitas, stat);
      restantes := restantes - {stat};
      feitas := feitas + {stat};
    }
    assert Restringir(kwargs, feitas) == kwargs;
  }

  class StarPower {
    const nome: string
    const efeito: string
    const nivelNecessario: int
    var ativo: bool

    constructor (nome: string, efeito: string, nivelNecessario: int)
      ensures this.nome == nome && this.efeito == efeito && this.nivelNecessario == nivelNecessario && !ativo
    {
      this.nome := nome;
      this.efeito := efeito;
      this.nivelNecessario := nivelNecessario;
      ativo := false;
    }
  }

  /** What get_stats_resumo reports; the win rate is not rounded here. */
  datatype Resumo = Resumo(nivel: int, experiencia: int, trofeus: int, melhorTrofeus: int,
                           partidas: int, vitorias: int, derrotas: int, winRate: real,
                           starPowerAtivo: Option<string>)

  /** The counters of a record that a match changes. */
  datatype Ficha = Ficha(experiencia: int, nivel: int, trofeus: int, melhorTrofeus: int,
                         partidas: int, vitorias: int, derrotas: int, estatisticas: map<string, int>)

  /** The counters of a new record: level 1, everything else at zero. */
  const FICHA_INICIAL: Ficha := Ficha(0, 1, 0, 0, 0, 0, 0, map k | k in CHAVES_ESTATISTICAS :: 0)

  /** The invariant of a record's counters (BrawlerProgressao.Valid on a Ficha). */
  predicate FichaValida(f: Ficha)
  {
    f.nivel == NivelDe(f.experiencia) && 0 <= f.trofeus <= f.melhorTrofeus &&
    0 <= f.vitorias && 0 <= f.derrotas && f.partidas == f.vitorias + f.derrotas &&
    f.estatisticas.Keys == CHAVES_ESTATISTICAS
  }

  /**
   * The counters after one match (processar_fim_partida): the match's
   * experience, the trophies of the level before the match won or lost (a
   * loss never below zero), the best trophies following a win, one more match
   * won or lost, and the statistics accumulated.
   */
  function AposPartida(f: Ficha, vitoria: bool, tempo: real, stats: map<string, int>): (g: Ficha)
    ensures g.partidas == f.partidas + 1 && g.nivel == NivelDe(g.experiencia)
    ensures vitoria ==> g.vitorias == f.vitorias + 1 && g.derrotas == f.derrotas && g.trofeus > f.trofeus
    ensures !vitoria ==> g.derrotas == f.derrotas + 1 && g.vitorias == f.vitorias && 0 <= g.trofeus
    ensures !vitoria && f.trofeus >= 0 ==> g.trofeus <= f.trofeus
    ensures FichaValida(f) ==> FichaValida(g)
  {
    var exp := f.experiencia + ExperienciaPartida(vitoria, tempo, Get(stats, "dano_causado"),
                                                  Get(stats, "inimigos_eliminados"), Get(stats, "gemas_coletadas"));
    var t := TrofeusPartida(vitoria, f.nivel);
    var trofeus := if vitoria then f.trofeus + t else Max(0, f.trofeus - t);
    Ficha(exp, NivelDe(exp), trofeus, if vitoria then Max(f.melhorTrofeus, trofeus) else f.melhorTrofeus,
          f.partidas + 1, f.vitorias + (if vitoria then 1 else 0), f.derrotas + (if vitoria then 0 else 1),
          Acumular(f.estatisticas, stats))
  }

  class BrawlerProgressao {
    const nome: string
    var experiencia: int
    var nivel: int
    var trofeus: int
    var melhorTrofeus: int
    var partidasJogadas: int
    var vitorias: int
    var derrotas: int
    var starPowers: seq<StarPower>
    var starPowerAtivo: Option<StarPower>
    var estatisticas: map<string, int>

    /**
     * The level matches the experience, trophies are never negative nor above
     * the record, every match is a win or a loss, and the statistics keep
     * their five keys.
     */
    predicate Valid()
      reads this
    {
      nivel == NivelDe(experiencia) && 0 <= trofeus <= melhorTrofeus &&
      0 <= vitorias && 0 <= derrotas && partidasJogadas == vitorias + derrotas &&
      estatisticas.Keys == CHAVES_ESTATISTICAS
    }

    /** The counters of the record. */
    function Registro(): Ficha
      reads this
    {
      Ficha(experiencia, nivel, trofeus, melhorTrofeus, partidasJogadas, vitorias, derrotas, estatisticas)
    }

    /** A new record: level 1, everything at zero, and the Star Powers of its name (_inicializar_star_powers). */
    constructor (nome: string)
      ensures Valid() && this.nome == nome && experiencia == 0 && nivel == 1
      ensures trofeus == 0 && melhorTrofeus == 0 && partidasJogadas == 0 && vitorias == 0 && derrotas == 0
      ensures starPowerAtivo == None && forall k :: k in estatisticas ==> estatisticas[k] == 0
      ensures estatisticas == map k | k in CHAVES_ESTATISTICAS :: 0
      ensures var t := TabelaStarPowers(nome);
        |starPowers| == |t| &&
        forall i :: 0 <= i < |t| ==>
          starPowers[i].nome == t[i].0 && starPowers[i].efeito == t[i].1 &&
          starPowers[i].nivelNecessario == t[i].2 && !starPowers[i].ativo && fresh(starPowers[i])
    {
      var t := TabelaStarPowers(nome);
      var sps: seq<StarPower> := [];
      var i := 0;
      while i < |t|
        invariant 0 <= i <= |t| && |sps| == i
        invariant forall j :: 0 <= j < i ==>
          sps[j].nome == t[j].0 && sps[j].efeito == t[j].1 &&
          sps[j].nivelNecessario == t[j].2 && !sps[j].ativo && fresh(sps[j])
      {
        var sp := new StarPower(t[i].0, t[i].1, t[i].2);
        sps := sps + [sp];
        i := i + 1;
      }
      this.nome := nome;
      experiencia := 0;
      nivel := 1;
      trofeus := 0;
      melhorTrofeus := 0;
      partidasJogadas := 0;
      vitorias := 0;
      derrotas := 0;
      starPowers := sps;
      starPowerAtivo := None;
      estatisticas := map k | k in CHAVES_ESTATISTICAS :: 0;
    }

    /** ganhar_experiencia: the level follows the new total; true iff it went up. */
    method GanharExperiencia(exp: int) returns (subiu: bool)
      modifies this`experiencia, this`nivel
      ensures experiencia == old(experiencia) + exp && nivel == NivelDe(experiencia)
      ensures subiu == (nivel > old(nivel))
      ensures old(Valid()) ==> Valid() && (exp >= 0 ==> nivel >= old(nivel))
    {
      experiencia := experiencia + exp;
      var nivelAnterior := nivel;
      nivel := NivelDe(experiencia);
      if exp >= 0 {
        NivelMonotone(old(experiencia), experiencia);
      }
      subiu := nivel > nivelAnterior;
    }

    function ExperienciaNecessariaProximoNivel(): (r: int)
      reads this
      ensures r >= 0 && (nivel >= NIVEL_MAXIMO ==> r == 0)
    {
      ExpProximoNivel(nivel, experiencia)
    }

    /** ganhar_trofeus: the trophies go up and the record follows them. */
    method GanharTrofeus(t: int)
      modifies this`trofeus, this`melhorTrofeus
      ensures trofeus == old(trofeus) + t && melhorTrofeus == Max(old(melhorTrofeus), trofeus)
      ensures old(Valid()) && t >= 0 ==> Valid()
    {
      trofeus := trofeus + t;
      if trofeus > melhorTrofeus {
        melhorTrofeus := trofeus;
      }
    }

    /** perder_trofeus: the trophies go down, never below zero; the record stays. */
    method PerderTrofeus(t: int)
      modifies this`trofeus
      ensures trofeus == Max(0, old(trofeus) - t)
      ensures old(Valid()) && t >= 0 ==> Valid()
    {
      trofeus := Max(0, trofeus - t);
    }

    predicate PodeUsarStarPower(sp: StarPower)
      reads this
    {
      nivel >= sp.nivelNecessario
    }

    /** ativar_star_power: succeeds iff the level is high enough; on failure nothing changes. */
    method AtivarStarPower(sp: StarPower) returns (ok: bool)
      modifies this`starPowerAtivo, sp`ativo
      ensures ok == (nivel >= sp.nivelNecessario)
      ensures ok ==> starPowerAtivo == Some(sp) && sp.ativo
      ensures !ok ==> starPowerAtivo == old(starPowerAtivo) && sp.ativo == old(sp.ativo)
    {
      if PodeUsarStarPower(sp) {
        starPowerAtivo := Some(sp);
        sp.ativo := true;
        return true;
      }
      return false;
    }

    /**
     * registrar_partida: one more match, won or lost, and the statistics it
     * keeps accumulate the values given for them, one key at a time.
     */
    method RegistrarPartida(vitoria: bool, kwargs: map<string, int>)
      modifies this`partidasJogadas, this`vitorias, this`derrotas, this`estatisticas
      ensures partidasJogadas == old(partidasJogadas) + 1
      ensures vitorias == old(vitorias) + (if vitoria then 1 else 0)
      ensures derrotas == old(derrotas) + (if vitoria then 0 else 1)
      ensures estatisticas == Acumular(old(estatisticas), kwargs)
      ensures old(Valid()) ==> Valid()
    {
      partidasJogadas := partidasJogadas + 1;
      if vitoria {
        vitorias := vitorias + 1;
      } else {
        derrotas := derrotas + 1;
      }
      var est := AcumularKwargs(estatisticas, kwargs);
      estatisticas := est;
      AcumularSpec(old(estatisticas), kwargs);
    }

    /**
     * The part of processar_fim_partida that changes the record: the
     * experience and trophies of the match, the trophies computed at the
     * level before the match, then the match recorded with every stat.
     */
    method AplicarPartida(vitoria: bool, tempo: real, stats: map<string, int>) returns (r: FimPartida)
      requires Valid()
      modifies this`experiencia, this`nivel, this`trofeus, this`melhorTrofeus
      modifies this`partidasJogadas, this`vitorias, this`derrotas, this`estatisticas
      ensures Valid()
      ensures Registro() == AposPartida(old(Registro()), vitoria, tempo, stats)
      ensures var t := TrofeusPartida(vitoria, old(nivel));
        r == FimPartida(ExperienciaPartida(vitoria, tempo, Get(stats, "dano_causado"),
                                           Get(stats, "inimigos_eliminados"), Get(stats, "gemas_coletadas")),
                        if vitoria then t else -t, nivel > old(nivel), nivel, trofeus)
    {
      var exp := ExperienciaPartida(vitoria, tempo, Get(stats, "dano_causado"),
                                    Get(stats, "inimigos_eliminados"), Get(stats, "gemas_coletadas"));
      var trofeus := TrofeusPartida(vitoria, nivel);
      ghost var g := AposPartida(Registro(), vitoria, tempo, stats);
      var subiu := GanharExperiencia(exp);
      assert experiencia == g.experiencia && nivel == g.nivel;
      if vitoria {
        GanharTrofeus(trofeus);
      } else {
        PerderTrofeus(trofeus);
      }
      assert this.trofeus == g.trofeus && melhorTrofeus == g.melhorTrofeus;
      RegistrarPartida(vitoria, stats);
      assert Registro() == g;
      r := FimPartida(exp, if vitoria then trofeus else -trofeus, subiu, nivel, this.trofeus);
    }

    /** get_win_rate: the percentage of matches won, 0 before the first match. */
    function WinRate(): (r: real)
      reads this
      ensures partidasJogadas == 0 ==> r == 0.0
      ensures Valid() ==> 0.0 <= r <= 100.0
    {
      if partidasJogadas == 0 then 0.0
      else
        var p := partidasJogadas as real;
        var v := vitorias as real;
        assert Valid() ==> 0.0 <= v / p <= 1.0 by {
          if Valid() {
            assert 0.0 <= v <= p && p > 0.0;
            assert v / p * p == v;
          }
        }
        (v / p) * 100.0
    }

    /** get_stats_resumo without the rounding of the win rate. */
    function StatsResumo(): (r: Resumo)
      reads this, if starPowerAtivo.Some? then {starPowerAtivo.value} else {}
      ensures r.nivel == nivel && r.trofeus == trofeus && r.melhorTrofeus == melhorTrofeus
      ensures r.partidas == partidasJogadas && r.vitorias == vitorias && r.derrotas == derrotas
      ensures r.experiencia == experiencia && r.winRate == WinRate()
      ensures r.starPowerAtivo.Some? == starPowerAtivo.Some?
      ensures starPowerAtivo.Some? ==> r.starPowerAtivo.value == starPowerAtivo.value.nome
    {
      Resumo(nivel, experiencia, trofeus, melhorTrofeus, partidasJogadas, vitorias, derrotas, WinRate(),
             if starPowerAtivo.Some? then Some(starPowerAtivo.value.nome) else None)
    }
  }

  /** The Star Powers of sps that the level unlocks, in order. */
  function Disponiveis(sps: seq<StarPower>, nivel: int): (r: seq<StarPower>)
    ensures |r| <= |sps|
    ensures forall i :: 0 <= i < |r| ==> r[i] in sps && nivel >= r[i].nivelNecessario
    ensures forall i :: 0 <= i < |sps| && nivel >= sps[i].nivelNecessario ==> sps[i] in r
  {
    if sps == [] then []
    else (if nivel >= sps[0].nivelNecessario then [sps[0]] else []) + Disponiveis(sps[1..], nivel)
  }

  /** Leveling up never takes a Star Power away. */
  lemma DisponiveisCrescem(sps: seq<StarPower>, a: int, b: int)
    requires a <= b
    ensures forall i :: 0 <= i < |Disponiveis(sps, a)| ==> Disponiveis(sps, a)[i] in Disponiveis(sps, b)
  {
  }

  /** What processar_fim_partida returns. */
  datatype FimPartida = FimPartida(expGanha: int, trofeusMudanca: int, subiuNivel: bool, novoNivel: int, novosTrofeus: int)

  /** stats.get(chave, 0). */
  function Get(stats: map<string, int>, chave: string): int
  {
    if chave in stats then stats[chave] else 0
  }

  /** A ranking entry: a Brawler's name and trophies. */
  type Entrada = (string, int)

  predicate OrdenadoDesc(s: seq<Entrada>)
  {
    forall i, j :: 0 <= i < j < |s| ==> s[i].1 >= s[j].1
  }

  /** The entries of s with exactly t trophies, in order. */
  function ComTrofeus(s: seq<Entrada>, t: int): seq<Entrada>
  {
    if s == [] then [] else (if s[0].1 == t then [s[0]] else []) + ComTrofeus(s[1..], t)
  }

  /** Puts x before the first entry with at most its trophies. */
  function InserirDesc(x: Entrada, s: seq<Entrada>): (r: seq<Entrada>)
    ensures multiset(r) == multiset(s) + multiset{x}
    ensures |r| == |s| + 1 && (r[0] == x || (s != [] && r[0] == s[0]))
  {
    if s == [] || s[0].1 <= x.1 then [x] + s
    else
      assert s == [s[0]] + s[1..];
      [s[0]] + InserirDesc(x, s[1..])
  }

  lemma {:induction false} InserirOrdenado(x: Entrada, s: seq<Entrada>)
    requires OrdenadoDesc(s)
    ensures OrdenadoDesc(InserirDesc(x, s))
  {
    if s != [] && s[0].1 > x.1 {
      assert OrdenadoDesc(s[1..]);
      InserirOrdenado(x, s[1..]);
    }
  }

  /**
   * sorted(ranking, key=trophies, reverse=True): a stable sort from the most
   * trophies to the fewest, ties kept in their original order.
   */
  function Ranking(s: seq<Entrada>): (r: seq<Entrada>)
    ensures multiset(r) == multiset(s) && OrdenadoDesc(r)
  {
    if s == [] then []
    else
      assert s == [s[0]] + s[1..];
      InserirOrdenado(s[0], Ranking(s[1..]));
      InserirDesc(s[0], Ranking(s[1..]))
  }

  lemma {:induction false} ComTrofeusInserir(x: Entrada, s: seq<Entrada>, t: int)
    requires OrdenadoDesc(s)
    ensures ComTrofeus(InserirDesc(x, s), t) == (if x.1 == t then [x] else []) + ComTrofeus(s, t)
  {
    if s == [] || s[0].1 <= x.1 {
      assert ([x] + s)[1..] == s;
    } else {
      var resto := InserirDesc(x, s[1..]);
      var r := [s[0]] + resto;
      assert r[0] == s[0] && r[1..] == resto;
      assert OrdenadoDesc(s[1..]);
      ComTrofeusInserir(x, s[1..], t);
      var cx := if x.1 == t then [x] else [];
      var c0 := if s[0].1 == t then [s[0]] else [];
      assert ComTrofeus(r, t) == c0 + ComTrofeus(resto, t);
      assert ComTrofeus(s, t) == c0 + ComTrofeus(s[1..], t);
      if x.1 == t {
        assert c0 == [];
      } else {
        assert cx == [];
      }
    }
  }

  /** The sort is stable: for every trophy count the entries with it keep their order. */
  lemma {:induction false} RankingEstavel(s: seq<Entrada>, t: int)
    ensures ComTrofeus(Ranking(s), t) == ComTrofeus(s, t)
  {
    if s != [] {
      RankingEstavel(s[1..], t);
      ComTrofeusInserir(s[0], Ranking(s[1..]), t);
    }
  }

  class SistemaProgressao {
    /** The names in the order the dict received them. */
    var nomes: seq<string>
    var brawlers: map<string, BrawlerProgressao>

    predicate Valid()
      reads this
    {
      Distinct(nomes) && brawlers.Keys == SetOf(nomes) &&
      forall n :: n in brawlers ==> brawlers[n].nome == n
    }

    constructor ()
      ensures Valid() && nomes == [] && brawlers == map[]
    {
      nomes := [];
      brawlers := map[];
    }

    /** get_brawler: the record kept for the name, created and kept on first use. */
    method GetBrawler(nome: string) returns (b: BrawlerProgressao)
      requires Valid()
      modifies this
      ensures Valid() && nome in brawlers && b == brawlers[nome]
      ensures nome in old(brawlers) ==> b == old(brawlers)[nome] && brawlers == old(brawlers) && nomes == old(nomes)
      ensures nome !in old(brawlers) ==>
        fresh(b) && brawlers == old(brawlers)[nome := b] && nomes == old(nomes) + [nome] &&
        b.nome == nome && b.Valid() && b.Registro() == FICHA_INICIAL
    {
      if nome !in brawlers {
        var novo := new BrawlerProgressao(nome);
        DistinctSnoc(nomes, nome);
        brawlers := brawlers[nome := novo];
        nomes := nomes + [nome];
      }
      b := brawlers[nome];
    }

    /**
     * processar_fim_partida without the save: the record of the name, created
     * on first use, takes the match (AplicarPartida); only the stats the record
     * keeps accumulate, so `dano_causado` and `dano_recebido` are dropped.
     */
    method ProcessarFimPartida(nome: string, vitoria: bool, tempo: real, stats: map<string, int>)
      returns (r: FimPartida)
      requires Valid() && forall n :: n in brawlers ==> brawlers[n].Valid()
      modifies this, if nome in brawlers then {brawlers[nome]} else {}
      ensures Valid() && nome in brawlers && forall n :: n in brawlers ==> brawlers[n].Valid()
      ensures nomes == old(nomes) + (if nome in old(brawlers) then [] else [nome])
      ensures nome in old(brawlers) ==> brawlers == old(brawlers)
      ensures nome !in old(brawlers) ==> fresh(brawlers[nome]) && brawlers == old(brawlers)[nome := brawlers[nome]]
      ensures forall n :: n in old(brawlers) && n != nome ==> unchanged(old(brawlers)[n])
      ensures nome in old(brawlers) ==>
        brawlers[nome].Registro() == AposPartida(old(brawlers[nome].Registro()), vitoria, tempo, stats)
      ensures nome !in old(brawlers) ==> brawlers[nome].Registro() == AposPartida(FICHA_INICIAL, vitoria, tempo, stats)
      ensures var n0 := if nome in old(brawlers) then old(brawlers[nome].nivel) else 1;
        var t := TrofeusPartida(vitoria, n0);
        r.trofeusMudanca == (if vitoria then t else -t) && r.subiuNivel == (brawlers[nome].nivel > n0)
      ensures var b := brawlers[nome];
        r.expGanha == ExperienciaPartida(vitoria, tempo, Get(stats, "dano_causado"),
                                         Get(stats, "inimigos_eliminados"), Get(stats, "gemas_coletadas")) &&
        r.novoNivel == b.nivel && r.novosTrofeus == b.trofeus && b.nivel == NivelDe(b.experiencia) &&
        (vitoria ==> r.trofeusMudanca > 0) && (!vitoria ==> r.trofeusMudanca < 0)
    {
      ghost var novo := nome !in brawlers;
      ghost var n0 := if novo then 1 else brawlers[nome].nivel;
      var b := GetBrawler(nome);
      assert b.nivel == n0;
      r := AplicarAoRegistro(nome, vitoria, tempo, stats);
    }

    /** The record kept for the name takes the match; no other record changes. */
    method AplicarAoRegistro(nome: string, vitoria: bool, tempo: real, stats: map<string, int>)
      returns (r: FimPartida)
      requires Valid() && nome in brawlers && forall n :: n in brawlers ==> brawlers[n].Valid()
      modifies brawlers[nome]
      ensures forall n :: n in brawlers ==> brawlers[n].Valid()
      ensures forall n :: n in brawlers && n != nome ==> unchanged(brawlers[n])
      ensures brawlers[nome].Registro() == AposPartida(old(brawlers[nome].Registro()), vitoria, tempo, stats)
      ensures var t := TrofeusPartida(vitoria, old(brawlers[nome].nivel));
        r == FimPartida(ExperienciaPartida(vitoria, tempo, Get(stats, "dano_causado"),
                                           Get(stats, "inimigos_eliminados"), Get(stats, "gemas_coletadas")),
                        if vitoria then t else -t, brawlers[nome].nivel > old(brawlers[nome].nivel),
                        brawlers[nome].nivel, brawlers[nome].trofeus)
    {
      r := brawlers[nome].AplicarPartida(vitoria, tempo, stats);
    }

    /** get_star_powers_disponiveis: the Star Powers of the name's record that its level unlocks. */
    method GetStarPowersDisponiveis(nome: string) returns (r: seq<StarPower>)
      requires Valid()
      modifies this
      ensures Valid() && nome in brawlers && nomes == old(nomes) + (if nome in old(brawlers) then [] else [nome])
      ensures nome in old(brawlers) ==> brawlers == old(brawlers)
      ensures nome !in old(brawlers) ==>
        fresh(brawlers[nome]) && brawlers == old(brawlers)[nome := brawlers[nome]] &&
        brawlers[nome].Registro() == FICHA_INICIAL
      ensures r == Disponiveis(brawlers[nome].starPowers, brawlers[nome].nivel)
    {
      var b := GetBrawler(nome);
      r := Disponiveis(b.starPowers, b.nivel);
    }

    /** The (name, trophies) pairs of the first n names, in dict order. */
    function Pares(n: int): (r: seq<Entrada>)
      requires Valid() && 0 <= n <= |nomes|
      reads this, brawlers.Values
      ensures |r| == n && forall i :: 0 <= i < n ==> r[i] == (nomes[i], brawlers[nomes[i]].trofeus)
    {
      if n == 0 then [] else Pares(n - 1) + [(nomes[n - 1], brawlers[nomes[n - 1]].trofeus)]
    }

    /** get_ranking_brawlers: the pairs in dict order, then the stable sort by trophies. */
    method GetRankingBrawlers() returns (ranking: seq<Entrada>)
      requires Valid()
      ensures ranking == Ranking(Pares(|nomes|))
    {
      var pares: seq<Entrada> := [];
      var i := 0;
      while i < |nomes|
        invariant 0 <= i <= |nomes| && pares == Pares(i)
      {
        pares := pares + [(nomes[i], brawlers[nomes[i]].trofeus)];
        i := i + 1;
      }
      ranking := Ranking(pares);
    }
  }
}
