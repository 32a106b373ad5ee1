/**
 * src/bushes.py: bushes that hide the entities standing in them. Each bush
 * keeps the set of entities inside it, rebuilt every frame; a hidden target
 * can only be seen from close by. The sprite, its animation and the wind
 * sway are visual and are not modelled.
 */
module Bushes {
  import opened Geometry

  /** Anything with a position that can stand in a bush: the player or an enemy. */
  class Entidade {
    var posX: real
    var posY: real

    constructor (x: real, y: real)
      ensures posX == x && posY == y
    {
      posX := x;
      posY := y;
    }
  }

  const MARGEM_ARBUSTO: int := 10
  /** Below this distance a hidden entity is still seen (pode_ver_entidade). */
  const ALCANCE_ESCONDIDO: real := 60.0
  const DIST_MIN_OBSTACULO: int := 80
  const DIST_MIN_ARBUSTO: int := 90

  /** The 30x30 box centred at an entity's position, with pygame's truncation of floats. */
  function CaixaEntidade(x: real, y: real): Rect
  {
    Rect(Trunc(x - 15.0), Trunc(y - 15.0), 30, 30)
  }

  /** A bush's rect shrunk by the margin on every side. */
  function Interior(r: Rect): (i: Rect)
    ensures i.w == r.w - 2 * MARGEM_ARBUSTO && i.h == r.h - 2 * MARGEM_ARBUSTO
    ensures i.x == r.x + MARGEM_ARBUSTO && i.y == r.y + MARGEM_ARBUSTO
  {
    Rect(r.x + MARGEM_ARBUSTO, r.y + MARGEM_ARBUSTO, r.w - 2 * MARGEM_ARBUSTO, r.h - 2 * MARGEM_ARBUSTO)
  }

  class Arbusto {
    const posX: int
    const posY: int
    const largura: int
    const altura: int
    const rect: Rect
    /** random.uniform(0.6, 0.9), drawn by the caller. */
    const densidade: real
    var entidadesDentro: set<Entidade>

    /** The rect is centred on (x, y) with Python's floor division; nobody is inside yet. */
    constructor (x: int, y: int, largura: int, altura: int, densidade: real)
      ensures posX == x && posY == y && this.largura == largura && this.altura == altura
      ensures rect == Rect(x - largura / 2, y - altura / 2, largura, altura)
      ensures this.densidade == densidade && entidadesDentro == {}
    {
      posX := x;
      posY := y;
      this.largura := largura;
      this.altura := altura;
      rect := Rect(x - largura / 2, y - altura / 2, largura, altura);
      this.densidade := densidade;
      entidadesDentro := {};
    }

    /** verificar_entidade_dentro: the shrunk rect collides with the entity's box. */
    predicate VerificarEntidadeDentro(e: Entidade)
      reads e
    {
      Overlaps(Interior(rect), CaixaEntidade(e.posX, e.posY))
    }

    /** adicionar_entidade: set insertion. */
    method AdicionarEntidade(e: Entidade)
      modifies this`entidadesDentro
      ensures entidadesDentro == old(entidadesDentro) + {e}
    {
      entidadesDentro := entidadesDentro + {e};
    }

    /** remover_entidade: set discard; an absent entity changes nothing. */
    method RemoverEntidade(e: Entidade)
      modifies this`entidadesDentro
      ensures entidadesDentro == old(entidadesDentro) - {e}
      ensures e !in old(entidadesDentro) ==> entidadesDentro == old(entidadesDentro)
    {
      entidadesDentro := entidadesDentro - {e};
    }

    predicate EntidadeEstaEscondida(e: Entidade)
      reads this
    {
      e in entidadesDentro
    }
  }

  /**
   * For a bush wider and taller than its two margins, an entity is inside
   * exactly when its box meets the shrunk rect on both axes.
   */
  lemma DentroSpec(b: Arbusto, e: Entidade)
    requires b.rect.w > 2 * MARGEM_ARBUSTO && b.rect.h > 2 * MARGEM_ARBUSTO
    ensures var i := Interior(b.rect); var c := CaixaEntidade(e.posX, e.posY);
      b.VerificarEntidadeDentro(e) <==>
        i.x < c.x + 30 && c.x < i.x + i.w && i.y < c.y + 30 && c.y < i.y + i.h
  {
    OverlapsPositive(Interior(b.rect), CaixaEntidade(e.posX, e.posY));
  }

  /** The squared distance between two integer points. */
  function DistSqInt(x1: int, y1: int, x2: int, y2: int): int
  {
    (x1 - x2) * (x1 - x2) + (y1 - y2) * (y1 - y2)
  }

  /** pygame's centerx / centery: the position plus half the size, floored. */
  function Centro(r: Rect): (int, int)
  {
    (r.x + r.w / 2, r.y + r.h / 2)
  }

  /** No obstacle centre lies closer than 80 (sqrt(d) < 80 iff d < 6400 for integer d >= 0). */
  predicate LongeDosObstaculos(p: (int, int), obstaculos: seq<Rect>)
  {
    forall k :: 0 <= k < |obstaculos| ==>
      DistSqInt(p.0, p.1, Centro(obstaculos[k]).0, Centro(obstaculos[k]).1) >= DIST_MIN_OBSTACULO * DIST_MIN_OBSTACULO
  }

  /** No accepted bush lies closer than 90. */
  predicate LongeDosArbustos(p: (int, int), aceitas: seq<(int, int)>)
  {
    forall k :: 0 <= k < |aceitas| ==>
      DistSqInt(p.0, p.1, aceitas[k].0, aceitas[k].1) >= DIST_MIN_ARBUSTO * DIST_MIN_ARBUSTO
  }

  /** The 24 fixed positions of gerar_arbustos_estrategicos, around the centre (640, 360). */
  function PosicoesFixas(): seq<(int, int)>
  {
    var cx := SCREEN_WIDTH / 2;
    var cy := SCREEN_HEIGHT / 2;
    [(cx - 120, cy - 120), (cx + 120, cy - 120), (cx - 120, cy + 120), (cx + 120, cy + 120),
     (cx - 200, cy), (cx + 200, cy), (cx, cy - 150), (cx, cy + 150),
     (300, cy - 200), (300, cy + 200), (SCREEN_WIDTH - 300, cy - 200), (SCREEN_WIDTH - 300, cy + 200),
     (cx - 300, 200), (cx + 300, 200), (cx - 300, SCREEN_HEIGHT - 200), (cx + 300, SCREEN_HEIGHT - 200),
     (150, 300), (150, SCREEN_HEIGHT - 300), (SCREEN_WIDTH - 150, 300), (SCREEN_WIDTH - 150, SCREEN_HEIGHT - 300),
     (cx - 400, cy - 300), (cx + 400, cy - 300), (cx - 400, cy + 300), (cx + 400, cy + 300)]
  }

  /**
   * The candidates gerar_arbustos_estrategicos accepts, in order: each one far
   * enough from every obstacle centre and from every candidate accepted
   * before it.
   */
  function Aceitas(candidatas: seq<(int, int)>, obstaculos: seq<Rect>): (a: seq<(int, int)>)
    ensures |a| <= |candidatas|
  {
    if candidatas == [] then []
    else
      var antes := Aceitas(candidatas[..|candidatas| - 1], obstaculos);
      var p := candidatas[|candidatas| - 1];
      if LongeDosObstaculos(p, obstaculos) && LongeDosArbustos(p, antes) then antes + [p] else antes
  }

  /** The accepted list grows only by appending the last candidate, when that one is accepted. */
  lemma AceitasPasso(candidatas: seq<(int, int)>, obstaculos: seq<Rect>)
    requires candidatas != []
    ensures var antes := Aceitas(candidatas[..|candidatas| - 1], obstaculos);
      var p := candidatas[|candidatas| - 1];
      Aceitas(candidatas, obstaculos) ==
        if LongeDosObstaculos(p, obstaculos) && LongeDosArbustos(p, antes) then antes + [p] else antes
  {
  }

  /**
   * Every accepted bush is one of the candidates, at least 80 from every
   * obstacle centre, and at least 90 from every bush accepted before it.
   */
  lemma {:induction false} AceitasEspacadas(candidatas: seq<(int, int)>, obstaculos: seq<Rect>, i: int)
    requires 0 <= i < |Aceitas(candidatas, obstaculos)|
    ensures var a := Aceitas(candidatas, obstaculos);
      a[i] in candidatas && LongeDosObstaculos(a[i], obstaculos) && LongeDosArbustos(a[i], a[..i])
  {
    var menos := candidatas[..|candidatas| - 1];
    var antes := Aceitas(menos, obstaculos);
    var a := Aceitas(candidatas, obstaculos);
    AceitasPasso(candidatas, obstaculos);
    if i < |antes| {
      AceitasEspacadas(menos, obstaculos, i);
      assert a[i] == antes[i] && a[..i] == antes[..i];
      assert antes[i] in menos;
    } else {
      assert a[..i] == antes;
    }
  }

  class GerenciadorArbustos {
    const larguraMapa: int
    const alturaMapa: int
    /** The sprite group, in insertion order. */
    var arbustos: seq<Arbusto>

    constructor (larguraMapa: int, alturaMapa: int)
      ensures this.larguraMapa == larguraMapa && this.alturaMapa == alturaMapa && arbustos == []
    {
      this.larguraMapa := larguraMapa;
      this.alturaMapa := alturaMapa;
      arbustos := [];
    }

    /** The centres of the bushes, in order. */
    function Posicoes(): seq<(int, int)>
      reads this
    {
      PosicoesDe(arbustos)
    }

    /**
     * gerar_arbustos_estrategicos: the group is emptied, then the 24 fixed
     * positions followed by the 8 random ones are tried in order. The random
     * positions, sizes and densities are inputs (`sorteios` in acceptance order).
     */
    method GerarArbustosEstrategicos(obstaculos: seq<Rect>, extras: seq<(int, int)>, sorteios: seq<(int, real)>)
      requires |extras| == 8 && |sorteios| >= |PosicoesFixas()| + |extras|
      modifies this`arbustos
      ensures Posicoes() == Aceitas(PosicoesFixas() + extras, obstaculos)
      ensures forall i :: 0 <= i < |arbustos| ==>
        fresh(arbustos[i]) && arbustos[i].entidadesDentro == {} &&
        arbustos[i].largura == sorteios[i].0 && arbustos[i].altura == sorteios[i].0 && arbustos[i].densidade == sorteios[i].1
    {
      arbustos := [];
      var novos := CriarArbustos(PosicoesFixas() + extras, obstaculos, sorteios);
      arbustos := novos;
    }

    /**
     * atualizar: each bush's sway animation (only drawn, never the hitbox),
     * then the visibility step; afterwards the sets are what
     * AtualizarVisibilidade computes and the list of bushes does not change.
     */
    method Atualizar(dt: real, entidades: seq<Entidade>)
      modifies set b | b in arbustos
      ensures arbustos == old(arbustos)
      ensures forall b :: b in arbustos ==>
        b.entidadesDentro == set e | e in entidades && b.VerificarEntidadeDentro(e)
    {
      AtualizarVisibilidade(entidades);
    }

    /**
     * _atualizar_visibilidade: every bush's set is emptied, then every entity
     * is added to every bush it is inside; afterwards each set holds exactly
     * the given entities inside that bush.
     */
    method AtualizarVisibilidade(entidades: seq<Entidade>)
      modifies set b | b in arbustos
      ensures forall b :: b in arbustos ==>
        b.entidadesDentro == set e | e in entidades && b.VerificarEntidadeDentro(e)
    {
      var j := 0;
      while j < |arbustos|
        invariant 0 <= j <= |arbustos|
        invariant forall k :: 0 <= k < j ==> arbustos[k].entidadesDentro == {}
      {
        arbustos[j].entidadesDentro := {};
        j := j + 1;
      }
      var i := 0;
      while i < |entidades|
        invariant 0 <= i <= |entidades|
        invariant forall b :: b in arbustos ==>
          b.entidadesDentro == set e | e in entidades[..i] && b.VerificarEntidadeDentro(e)
      {
        var e := entidades[i];
        assert forall x :: x in entidades[..i + 1] <==> x in entidades[..i] || x == e;
        AdicionarEmTodos(arbustos, e);
        i := i + 1;
      }
      assert entidades[..i] == entidades;
    }

    /**
     * entidade_esta_escondida: some bush holds the entity. entidade_esta_em_arbusto
     * reads the same sets and answers the same.
     */
    method EntidadeEstaEscondida(e: Entidade) returns (r: bool)
      ensures r == exists k :: 0 <= k < |arbustos| && e in arbustos[k].entidadesDentro
    {
      var k := 0;
      while k < |arbustos|
        invariant 0 <= k <= |arbustos|
        invariant forall j :: 0 <= j < k ==> e !in arbustos[j].entidadesDentro
      {
        if arbustos[k].EntidadeEstaEscondida(e) {
          return true;
        }
        k := k + 1;
      }
      return false;
    }

    /** pode_ver_entidade: a target outside every bush is seen; a hidden one only from closer than 60. */
    method PodeVerEntidade(observador: Entidade, alvo: Entidade) returns (r: bool)
      ensures r == ((exists k :: 0 <= k < |arbustos| && alvo in arbustos[k].entidadesDentro) ==>
                    DistSq(alvo.posX, alvo.posY, observador.posX, observador.posY) < ALCANCE_ESCONDIDO * ALCANCE_ESCONDIDO)
    {
      var escondida := EntidadeEstaEscondida(alvo);
      if escondida {
        return DistSq(alvo.posX, alvo.posY, observador.posX, observador.posY) < ALCANCE_ESCONDIDO * ALCANCE_ESCONDIDO;
      }
      return true;
    }

    /** obter_cobertura_para_posicao: the density of the first bush whose rect holds the point, else 0. */
    method ObterCoberturaParaPosicao(x: int, y: int) returns (d: real)
      ensures d == Cobertura(arbustos, x, y)
    {
      var k := 0;
      while k < |arbustos|
        invariant 0 <= k <= |arbustos|
        invariant Cobertura(arbustos, x, y) == Cobertura(arbustos[k..], x, y)
      {
        assert arbustos[k..][0] == arbustos[k] && arbustos[k..][1..] == arbustos[k + 1..];
        if ContainsPoint(arbustos[k].rect, x, y) {
          return arbustos[k].densidade;
        }
        k := k + 1;
      }
      return 0.0;
    }
  }

  function PosicoesDe(bs: seq<Arbusto>): (r: seq<(int, int)>)
    ensures |r| == |bs| && forall i :: 0 <= i < |r| ==> r[i] == (bs[i].posX, bs[i].posY)
  {
    if bs == [] then [] else [(bs[0].posX, bs[0].posY)] + PosicoesDe(bs[1..])
  }

  lemma PosicoesDeSnoc(bs: seq<Arbusto>, b: Arbusto)
    ensures PosicoesDe(bs + [b]) == PosicoesDe(bs) + [(b.posX, b.posY)]
  {
  }

  /** The i-th new bush has the i-th drawn size and density and nothing inside it. */
  ghost predicate Iniciais(novos: seq<Arbusto>, sorteios: seq<(int, real)>)
    reads set b | b in novos
  {
    |novos| <= |sorteios| &&
    forall i :: 0 <= i < |novos| ==>
      novos[i].entidadesDentro == {} &&
      novos[i].largura == sorteios[i].0 && novos[i].altura == sorteios[i].0 && novos[i].densidade == sorteios[i].1
  }

  /** One accepted candidate: a new bush at p with the next size and density drawn. */
  method Acrescentar(novos: seq<Arbusto>, p: (int, int), sorteios: seq<(int, real)>) returns (r: seq<Arbusto>)
    requires Iniciais(novos, sorteios) && |novos| < |sorteios|
    ensures |r| == |novos| + 1 && r[..|novos|] == novos && fresh(r[|novos|])
    ensures Iniciais(r, sorteios) && PosicoesDe(r) == PosicoesDe(novos) + [p]
  {
    var b := new Arbusto(p.0, p.1, sorteios[|novos|].0, sorteios[|novos|].0, sorteios[|novos|].1);
    PosicoesDeSnoc(novos, b);
    r := novos + [b];
    assert forall i :: 0 <= i < |novos| ==> r[i] == novos[i];
    assert r[..|novos|] == novos;
  }

  /**
   * The candidate loop of gerar_arbustos_estrategicos: a new bush at each
   * accepted candidate, with the next size and density drawn.
   */
  method CriarArbustos(candidatas: seq<(int, int)>, obstaculos: seq<Rect>, sorteios: seq<(int, real)>)
    returns (novos: seq<Arbusto>)
    requires |sorteios| >= |candidatas|
    ensures PosicoesDe(novos) == Aceitas(candidatas, obstaculos)
    ensures forall i :: 0 <= i < |novos| ==> fresh(novos[i])
    ensures Iniciais(novos, sorteios)
  {
    novos := [];
    var aceitas: seq<(int, int)> := [];
    var c := 0;
    while c < |candidatas|
      invariant 0 <= c <= |candidatas|
      invariant aceitas == Aceitas(candidatas[..c], obstaculos) && aceitas == PosicoesDe(novos) && |novos| <= c
      invariant forall i :: 0 <= i < |novos| ==> fresh(novos[i])
      invariant Iniciais(novos, sorteios)
    {
      var p := candidatas[c];
      assert candidatas[..c + 1][..c] == candidatas[..c];
      var ok := PosicaoLonge(p, obstaculos, aceitas);
      if ok {
        ghost var antes := novos;
        novos := Acrescentar(novos, p, sorteios);
        forall i | 0 <= i < |novos|
          ensures fresh(novos[i])
        {
          if i < |antes| {
            assert novos[i] == antes[i];
          }
        }
        aceitas := aceitas + [p];
      }
      c := c + 1;
    }
    assert candidatas[..c] == candidatas;
  }

  /** The inner loop of _atualizar_visibilidade: e joins every bush it is inside. */
  method AdicionarEmTodos(arbustos: seq<Arbusto>, e: Entidade)
    modifies set b | b in arbustos
    ensures forall b :: b in arbustos ==>
      b.entidadesDentro == old(b.entidadesDentro) + (if b.VerificarEntidadeDentro(e) then {e} else {})
  {
    var j := 0;
    while j < |arbustos|
      invariant 0 <= j <= |arbustos|
      invariant forall b :: b in arbustos[..j] ==>
        b.entidadesDentro == old(b.entidadesDentro) + (if b.VerificarEntidadeDentro(e) then {e} else {})
      invariant forall b :: b in arbustos && b !in arbustos[..j] ==> b.entidadesDentro == old(b.entidadesDentro)
    {
      var b := arbustos[j];
      assert forall x :: x in arbustos[..j + 1] <==> x in arbustos[..j] || x == b;
      if b.VerificarEntidadeDentro(e) {
        b.AdicionarEntidade(e);
      }
      j := j + 1;
    }
    assert arbustos[..j] == arbustos;
  }

  /** The density of the first bush whose rect holds (x, y), or 0.0. */
  function Cobertura(arbustos: seq<Arbusto>, x: int, y: int): (d: real)
    ensures (forall k :: 0 <= k < |arbustos| ==> !ContainsPoint(arbustos[k].rect, x, y)) ==> d == 0.0
    ensures arbustos != [] && ContainsPoint(arbustos[0].rect, x, y) ==> d == arbustos[0].densidade
  {
    if arbustos == [] then 0.0
    else if ContainsPoint(arbustos[0].rect, x, y) then arbustos[0].densidade
    else Cobertura(arbustos[1..], x, y)
  }

  /**
   * The cover at a point is the density of a bush holding it, the first one
   * in the group, or 0.0 when no bush holds it.
   */
  lemma {:induction false} CoberturaPrimeira(arbustos: seq<Arbusto>, x: int, y: int)
    ensures var d := Cobertura(arbustos, x, y);
      (forall k :: 0 <= k < |arbustos| ==> !ContainsPoint(arbustos[k].rect, x, y)) ||
      (exists k :: 0 <= k < |arbustos| && ContainsPoint(arbustos[k].rect, x, y) && d == arbustos[k].densidade &&
        forall j :: 0 <= j < k ==> !ContainsPoint(arbustos[j].rect, x, y))
  {
    if arbustos != [] && !ContainsPoint(arbustos[0].rect, x, y) {
      CoberturaPrimeira(arbustos[1..], x, y);
      var d := Cobertura(arbustos[1..], x, y);
      if exists k :: 0 <= k < |arbustos[1..]| && ContainsPoint(arbustos[1..][k].rect, x, y) && d == arbustos[1..][k].densidade &&
           forall j :: 0 <= j < k ==> !ContainsPoint(arbustos[1..][j].rect, x, y) {
        var k :| 0 <= k < |arbustos[1..]| && ContainsPoint(arbustos[1..][k].rect, x, y) && d == arbustos[1..][k].densidade &&
           forall j :: 0 <= j < k ==> !ContainsPoint(arbustos[1..][j].rect, x, y);
        assert forall j :: 0 <= j < k + 1 ==> !ContainsPoint(arbustos[j].rect, x, y);
      }
    }
  }

  /** The loops of gerar_arbustos_estrategicos that test one candidate: obstacles first, then the bushes so far. */
  method PosicaoLonge(p: (int, int), obstaculos: seq<Rect>, aceitas: seq<(int, int)>) returns (ok: bool)
    ensures ok == (LongeDosObstaculos(p, obstaculos) && LongeDosArbustos(p, aceitas))
  {
    ok := true;
    var k := 0;
    while k < |obstaculos|
      invariant 0 <= k <= |obstaculos|
      invariant forall j :: 0 <= j < k ==>
        DistSqInt(p.0, p.1, Centro(obstaculos[j]).0, Centro(obstaculos[j]).1) >= DIST_MIN_OBSTACULO * DIST_MIN_OBSTACULO
    {
      var c := Centro(obstaculos[k]);
      if DistSqInt(p.0, p.1, c.0, c.1) < DIST_MIN_OBSTACULO * DIST_MIN_OBSTACULO {
        return false;
      }
      k := k + 1;
    }
    k := 0;
    while k < |aceitas|
      invariant 0 <= k <= |aceitas|
      invariant forall j :: 0 <= j < k ==>
        DistSqInt(p.0, p.1, aceitas[j].0, aceitas[j].1) >= DIST_MIN_ARBUSTO * DIST_MIN_ARBUSTO
    {
      if DistSqInt(p.0, p.1, aceitas[k].0, aceitas[k].1) < DIST_MIN_ARBUSTO * DIST_MIN_ARBUSTO {
        return false;
      }
      k := k + 1;
    }
  }
}
