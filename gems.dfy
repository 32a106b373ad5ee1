/**
 * src/gem_system.py: the gems of the Gem Grab mode. A gem stays where it was
 * created and is collected once. The manager keeps the gems on the map,
 * removes the collected ones, spawns a new gem on a timer at a position drawn
 * at random, collects the gems within reach of the player, and drops gems
 * at a given point. The random draws are a parameter. The animation clocks
 * and drawing are left out.
 */
module Gems {
  import opened Geometry
  import opened Seqs

  const TAMANHO_GEMA: int := 15
  const INTERVALO_SPAWN_GEMA: real := 7.0
  const GEMAS_SIMULTANEAS_MAX: int := 3
  const RAIO_COLETA_GEMA: int := 25
  /** _spawnar_gema draws at most this many positions. */
  const TENTATIVAS_SPAWN: int := 50
  /** dropar_gema tries this many offsets around a blocked point: range(-20, 21, 10). */
  const PASSOS_BUSCA: nat := 5

  /** The j-th offset dropar_gema tries. */
  function Offset(j: int): int
  {
    10 * j - 20
  }

  /** The 30x30 box pygame.Rect(x - 15, y - 15, 30, 30) around an integer position. */
  function BoxAt(x: int, y: int): Rect
  {
    Rect(x - TAMANHO_GEMA, y - TAMANHO_GEMA, 2 * TAMANHO_GEMA, 2 * TAMANHO_GEMA)
  }

  /** The same box around a float position: pygame.Rect truncates the float edges. */
  function GemBox(x: real, y: real): Rect
  {
    Rect(Trunc(x - TAMANHO_GEMA as real), Trunc(y - TAMANHO_GEMA as real), 2 * TAMANHO_GEMA, 2 * TAMANHO_GEMA)
  }

  /** The rect collides with none of the obstacles. */
  predicate Clear(r: Rect, obstacles: seq<Rect>)
  {
    forall k :: 0 <= k < |obstacles| ==> !Overlaps(r, obstacles[k])
  }

  /** math.sqrt of the squared distance is at most RAIO_COLETA_GEMA. */
  predicate InReach(x: real, y: real, jx: real, jy: real)
  {
    DistSq(x, y, jx, jy) <= (RAIO_COLETA_GEMA * RAIO_COLETA_GEMA) as real
  }

  class Gema {
    const x: real
    const y: real
    var coletada: bool

    constructor (x: real, y: real)
      ensures this.x == x && this.y == y && !coletada
    {
      this.x := x;
      this.y := y;
      coletada := false;
    }

    /** pode_ser_coletada: not yet collected and within reach of the player. */
    predicate PodeSerColetada(jx: real, jy: real)
      reads this`coletada
    {
      !coletada && InReach(x, y, jx, jy)
    }

    /** coletar: the particle effect is left out. */
    method Coletar()
      modifies this`coletada
      ensures coletada
    {
      coletada := true;
    }
  }

  /** The gems update keeps, in order: those not collected. */
  function Uncollected(gs: seq<Gema>): (r: seq<Gema>)
    reads gs`coletada
    ensures |r| <= |gs|
    ensures forall k :: 0 <= k < |r| ==> !r[k].coletada
  {
    if gs == [] then []
    else
      var n := |gs| - 1;
      Uncollected(gs[..n]) + (if gs[n].coletada then [] else [gs[n]])
  }

  /** A gem that is not collected is kept. */
  lemma {:induction false} UncollectedKeeps(gs: seq<Gema>, g: Gema)
    requires g in gs && !g.coletada
    ensures g in Uncollected(gs)
  {
    var n := |gs| - 1;
    if gs[n] != g {
      assert g in gs[..n] by {
        assert gs == gs[..n] + [gs[n]];
      }
      UncollectedKeeps(gs[..n], g);
    }
  }

  /** Every gem kept was on the list. */
  lemma {:induction false} UncollectedSubset(gs: seq<Gema>, g: Gema)
    requires g in Uncollected(gs)
    ensures g in gs
  {
    var n := |gs| - 1;
    assert gs == gs[..n] + [gs[n]];
    if g != gs[n] {
      UncollectedSubset(gs[..n], g);
    }
  }

  /**
   * One step of update's loop over its copy: removing gem i when it is
   * collected, and keeping it otherwise, extends the kept prefix by it.
   */
  lemma RemoveStep(copia: seq<Gema>, i: int)
    requires 0 <= i < |copia|
    ensures var u := Uncollected(copia[..i]);
      |Uncollected(copia[..i + 1])| == |u| + (if copia[i].coletada then 0 else 1) &&
      (copia[i].coletada ==> RemoveFirst(u + copia[i..], copia[i]) == Uncollected(copia[..i + 1]) + copia[i + 1..]) &&
      (!copia[i].coletada ==> u + copia[i..] == Uncollected(copia[..i + 1]) + copia[i + 1..])
  {
    var g := copia[i];
    var u := Uncollected(copia[..i]);
    assert copia[..i + 1][..i] == copia[..i];
    assert Uncollected(copia[..i + 1]) == u + (if g.coletada then [] else [g]);
    assert copia[i..] == [g] + copia[i + 1..];
    if g.coletada {
      assert g !in u;
      RemoveFirstAt(u, copia[i..], g);
      assert copia[i..][1..] == copia[i + 1..];
      assert Uncollected(copia[..i + 1]) == u;
    } else {
      assert u + copia[i..] == (u + [g]) + copia[i + 1..];
    }
  }

  /** Keeping part of a list without duplicates leaves a list without duplicates. */
  lemma {:induction false} UncollectedDistinct(gs: seq<Gema>)
    requires Distinct(gs)
    ensures Distinct(Uncollected(gs))
  {
    if gs != [] {
      var n := |gs| - 1;
      DistinctPrefix(gs, n);
      UncollectedDistinct(gs[..n]);
      if !gs[n].coletada {
        assert gs[n] !in Uncollected(gs[..n]) by {
          if gs[n] in Uncollected(gs[..n]) {
            UncollectedSubset(gs[..n], gs[n]);
          }
        }
        DistinctSnoc(Uncollected(gs[..n]), gs[n]);
      }
    }
  }

  /** The number of gems the player standing at (jx, jy) can collect. */
  function CountCollectable(gs: seq<Gema>, jx: real, jy: real): (n: nat)
    reads gs`coletada
    ensures n <= |gs|
  {
    if gs == [] then 0
    else
      var k := |gs| - 1;
      CountCollectable(gs[..k], jx, jy) + (if gs[k].PodeSerColetada(jx, jy) then 1 else 0)
  }

  /** When no gem can be collected the count is zero, and conversely. */
  lemma {:induction false} CountCollectableZero(gs: seq<Gema>, jx: real, jy: real)
    ensures CountCollectable(gs, jx, jy) == 0 <==> forall k :: 0 <= k < |gs| ==> !gs[k].PodeSerColetada(jx, jy)
  {
    if gs != [] {
      var n := |gs| - 1;
      CountCollectableZero(gs[..n], jx, jy);
      assert forall k :: 0 <= k < n ==> gs[..n][k] == gs[k];
    }
  }

  /**
   * A drawn position passes _spawnar_gema's checks: its box clears every
   * obstacle and it is at least 3 * TAMANHO_GEMA from every gem (compared squared).
   */
  predicate SpawnOk(x: int, y: int, obstacles: seq<Rect>, gemas: seq<Gema>)
  {
    Clear(BoxAt(x, y), obstacles) &&
    forall k :: 0 <= k < |gemas| ==>
      DistSq(x as real, y as real, gemas[k].x, gemas[k].y) >= (9 * TAMANHO_GEMA * TAMANHO_GEMA) as real
  }

  /** The index of the first drawn position that passes the checks, or |draws| when none does. */
  function FirstSpawn(draws: seq<(int, int)>, obstacles: seq<Rect>, gemas: seq<Gema>): (k: nat)
    ensures k <= |draws|
    ensures k < |draws| ==> SpawnOk(draws[k].0, draws[k].1, obstacles, gemas)
    ensures forall j :: 0 <= j < k ==> !SpawnOk(draws[j].0, draws[j].1, obstacles, gemas)
  {
    if draws == [] then 0
    else if SpawnOk(draws[0].0, draws[0].1, obstacles, gemas) then 0
    else 1 + FirstSpawn(draws[1..], obstacles, gemas)
  }

  lemma FirstSpawnAt(draws: seq<(int, int)>, obstacles: seq<Rect>, gemas: seq<Gema>, i: int)
    requires 0 <= i <= |draws|
    requires forall j :: 0 <= j < i ==> !SpawnOk(draws[j].0, draws[j].1, obstacles, gemas)
    requires i == |draws| || SpawnOk(draws[i].0, draws[i].1, obstacles, gemas)
    ensures FirstSpawn(draws, obstacles, gemas) == i
  {
  }

  /**
   * A spawn attempt with the given draws turned the list `before` into
   * `after` and the spawn counter total0 into total: one new gem at the first
   * valid draw, or nothing when no draw is valid.
   */
  predicate Spawned(after: seq<Gema>, total: int, before: seq<Gema>, total0: int,
                    draws: seq<(int, int)>, obstacles: seq<Rect>)
  {
    var k := FirstSpawn(draws, obstacles, before);
    if k < |draws| then
      |after| == |before| + 1 && after[..|before|] == before && total == total0 + 1 &&
      after[|before|].x == draws[k].0 as real && after[|before|].y == draws[k].1 as real
    else
      after == before && total == total0
  }

  /** Python's max(lo, min(v, hi)). */
  function Clamp(v: real, lo: real, hi: real): real
  {
    MaxR(lo, MinR(v, hi))
  }

  /** A searched position is inside the margins and its box clears every obstacle. */
  predicate FreeSpot(tx: int, ty: int, w: int, h: int, obstacles: seq<Rect>)
  {
    TAMANHO_GEMA <= tx <= w - TAMANHO_GEMA && TAMANHO_GEMA <= ty <= h - TAMANHO_GEMA &&
    Clear(BoxAt(tx, ty), obstacles)
  }

  /** Which rows ty0 + Offset(j) of column tx are free. */
  function FreeRows(tx: int, ty0: int, w: int, h: int, obstacles: seq<Rect>): seq<bool>
  {
    seq(PASSOS_BUSCA, j => FreeSpot(tx, ty0 + Offset(j), w, h, obstacles))
  }

  /** The index of the first true entry, or |rows| when there is none. */
  function FirstTrue(rows: seq<bool>): (k: nat)
    ensures k <= |rows| && (k < |rows| ==> rows[k])
    ensures forall j :: 0 <= j < k ==> !rows[j]
  {
    if rows == [] then 0 else if rows[0] then 0 else 1 + FirstTrue(rows[1..])
  }

  lemma FirstTrueAt(rows: seq<bool>, i: int)
    requires 0 <= i <= |rows| && (i < |rows| ==> rows[i])
    requires forall j :: 0 <= j < i ==> !rows[j]
    ensures FirstTrue(rows) == i
  {
  }

  /** The search of one column tx around row ty0: its first free position, if any. */
  function ColumnSearch(tx: int, ty0: int, w: int, h: int, obstacles: seq<Rect>): Option<(int, int)>
  {
    var k := FirstTrue(FreeRows(tx, ty0, w, h, obstacles));
    if k < PASSOS_BUSCA then Some((tx, ty0 + Offset(k))) else None
  }

  /**
   * The column search finds a position exactly when some row of the column
   * is free, and then it is the topmost free row.
   */
  lemma ColumnSearchFirst(tx: int, ty0: int, w: int, h: int, obstacles: seq<Rect>)
    ensures var r := ColumnSearch(tx, ty0, w, h, obstacles);
      (r.Some? <==> exists j :: 0 <= j < PASSOS_BUSCA && FreeSpot(tx, ty0 + Offset(j), w, h, obstacles)) &&
      (r.Some? ==> exists j :: (0 <= j < PASSOS_BUSCA && r.value == (tx, ty0 + Offset(j)) &&
        FreeSpot(tx, ty0 + Offset(j), w, h, obstacles) &&
        forall i :: 0 <= i < j ==> !FreeSpot(tx, ty0 + Offset(i), w, h, obstacles)))
  {
    var rows := FreeRows(tx, ty0, w, h, obstacles);
    assert forall j :: 0 <= j < PASSOS_BUSCA ==> rows[j] == FreeSpot(tx, ty0 + Offset(j), w, h, obstacles);
  }

  /**
   * Where dropar_gema puts a gem asked for at (x0, y0) on a w x h map: the point
   * is clamped to the margins; if its box hits an obstacle, the first free
   * position of the column int(x) - 20 (rows int(y) - 20 ... int(y) + 20 by 10)
   * replaces it, and when there is none the clamped point is kept. Only that
   * one column is searched, since `posicao_valida` is never false when the
   * search loop tests it.
   */
  function DropSpot(w: int, h: int, obstacles: seq<Rect>, x0: real, y0: real): (real, real)
  {
    var m := TAMANHO_GEMA as real;
    var x := Clamp(x0, m, w as real - m);
    var y := Clamp(y0, m, h as real - m);
    if Clear(GemBox(x, y), obstacles) then (x, y)
    else match ColumnSearch(Trunc(x) + Offset(0), Trunc(y), w, h, obstacles)
      case Some(p) => (p.0 as real, p.1 as real)
      case None => (x, y)
  }

  /** On a map at least two margins wide and high, a dropped gem lies within the margins. */
  lemma DropSpotInBounds(w: int, h: int, obstacles: seq<Rect>, x0: real, y0: real)
    requires w >= 2 * TAMANHO_GEMA && h >= 2 * TAMANHO_GEMA
    ensures var p := DropSpot(w, h, obstacles, x0, y0);
      TAMANHO_GEMA as real <= p.0 <= (w - TAMANHO_GEMA) as real &&
      TAMANHO_GEMA as real <= p.1 <= (h - TAMANHO_GEMA) as real
  {
  }

  /** At an integer position the float box and the integer box agree. */
  lemma GemBoxAtInt(x: int, y: int)
    ensures GemBox(x as real, y as real) == BoxAt(x, y)
  {
    assert x as real - TAMANHO_GEMA as real == (x - TAMANHO_GEMA) as real;
    assert y as real - TAMANHO_GEMA as real == (y - TAMANHO_GEMA) as real;
  }

  /**
   * A dropped gem's box clears the obstacles exactly when the clamped point
   * was clear or some row of the searched column was free.
   */
  lemma DropSpotClear(w: int, h: int, obstacles: seq<Rect>, x0: real, y0: real)
    ensures var m := TAMANHO_GEMA as real;
      var x := Clamp(x0, m, w as real - m);
      var y := Clamp(y0, m, h as real - m);
      var p := DropSpot(w, h, obstacles, x0, y0);
      Clear(GemBox(p.0, p.1), obstacles) <==>
        Clear(GemBox(x, y), obstacles) ||
        exists j :: 0 <= j < PASSOS_BUSCA && FreeSpot(Trunc(x) + Offset(0), Trunc(y) + Offset(j), w, h, obstacles)
  {
    var m := TAMANHO_GEMA as real;
    var x := Clamp(x0, m, w as real - m);
    var y := Clamp(y0, m, h as real - m);
    ColumnSearchFirst(Trunc(x) + Offset(0), Trunc(y), w, h, obstacles);
    var r := ColumnSearch(Trunc(x) + Offset(0), Trunc(y), w, h, obstacles);
    if r.Some? {
      GemBoxAtInt(r.value.0, r.value.1);
    }
  }

  /**
   * Only one column is searched: a gem asked for at (100, 100) next to a tall
   * wall lands on the wall, although the position 20 to its right is free.
   */
  lemma DropSearchesOneColumn()
    ensures var wall := [Rect(60, 0, 40, 400)];
      DropSpot(SCREEN_WIDTH, SCREEN_HEIGHT, wall, 100.0, 100.0) == (100.0, 100.0) &&
      !Clear(GemBox(100.0, 100.0), wall) &&
      FreeSpot(120, 100, SCREEN_WIDTH, SCREEN_HEIGHT, wall)
  {
    var wall := [Rect(60, 0, 40, 400)];
    assert Trunc(100.0) == 100 && Trunc(85.0) == 85;
    assert GemBox(100.0, 100.0) == Rect(85, 85, 30, 30);
    assert !Overlaps(BoxAt(120, 100), wall[0]);
    var rows := FreeRows(80, 100, SCREEN_WIDTH, SCREEN_HEIGHT, wall);
    forall j | 0 <= j < PASSOS_BUSCA
      ensures !rows[j]
    {
      assert Overlaps(BoxAt(80, 100 + Offset(j)), wall[0]);
    }
    FirstTrueAt(rows, PASSOS_BUSCA);
  }

  class GerenciadorGemas {
    const largura: int
    const altura: int
    const obstaculos: seq<Rect>
    var gemas: seq<Gema>
    var tempoProximoSpawn: real
    var totalGemasSpawned: int
    var gemasColetadas: int

    /** Every gem on the list was created for it, so no gem is listed twice. */
    predicate Valid()
      reads this
    {
      Distinct(gemas)
    }

    constructor (largura: int, altura: int, obstaculos: seq<Rect>)
      ensures Valid() && this.largura == largura && this.altura == altura && this.obstaculos == obstaculos
      ensures gemas == [] && tempoProximoSpawn == INTERVALO_SPAWN_GEMA
      ensures totalGemasSpawned == 0 && gemasColetadas == 0
    {
      this.largura := largura;
      this.altura := altura;
      this.obstaculos := obstaculos;
      gemas := [];
      tempoProximoSpawn := INTERVALO_SPAWN_GEMA;
      totalGemasSpawned := 0;
      gemasColetadas := 0;
    }

    /**
     * update(dt) with the positions _spawnar_gema would draw: the collected
     * gems leave the list and are counted; the timer runs down, and when it
     * is out and fewer than GEMAS_SIMULTANEAS_MAX gems remain a spawn is
     * attempted and the timer restarts.
     */
    method Update(dt: real, draws: seq<(int, int)>)
      requires Valid() && |draws| == TENTATIVAS_SPAWN
      modifies this`gemas, this`gemasColetadas, this`tempoProximoSpawn, this`totalGemasSpawned
      ensures Valid()
      ensures var kept := old(Uncollected(gemas));
        var due := old(tempoProximoSpawn) - dt <= 0.0 && |kept| < GEMAS_SIMULTANEAS_MAX;
        gemasColetadas == old(gemasColetadas) + (|old(gemas)| - |kept|) &&
        tempoProximoSpawn == (if due then INTERVALO_SPAWN_GEMA else old(tempoProximoSpawn) - dt) &&
        (due ==> Spawned(gemas, totalGemasSpawned, kept, old(totalGemasSpawned), draws, obstaculos)) &&
        (!due ==> gemas == kept && totalGemasSpawned == old(totalGemasSpawned))
    {
      RemoverColetadas();
      tempoProximoSpawn := tempoProximoSpawn - dt;
      if tempoProximoSpawn <= 0.0 && |gemas| < GEMAS_SIMULTANEAS_MAX {
        SpawnarGema(draws);
        tempoProximoSpawn := INTERVALO_SPAWN_GEMA;
      }
    }

    /** The loop of update over a copy of the list, with the list and the counter stored at the end. */
    method RemoverColetadas()
      requires Valid()
      modifies this`gemas, this`gemasColetadas
      ensures Valid() && gemas == old(Uncollected(gemas))
      ensures gemasColetadas == old(gemasColetadas) + (|old(gemas)| - |gemas|)
    {
      UncollectedDistinct(gemas);
      var lista, removidas := SemColetadas(gemas);
      gemas, gemasColetadas := lista, gemasColetadas + removidas;
    }

    /** _spawnar_gema with its 50 draws: the first draw that passes the checks becomes a new gem. */
    method SpawnarGema(draws: seq<(int, int)>)
      requires Valid() && |draws| == TENTATIVAS_SPAWN
      modifies this`gemas, this`totalGemasSpawned
      ensures Valid() && Spawned(gemas, totalGemasSpawned, old(gemas), old(totalGemasSpawned), draws, obstaculos)
      ensures |gemas| > |old(gemas)| ==> fresh(gemas[|old(gemas)|]) && !gemas[|old(gemas)|].coletada
    {
      var i := 0;
      while i < TENTATIVAS_SPAWN
        invariant 0 <= i <= TENTATIVAS_SPAWN
        invariant gemas == old(gemas) && totalGemasSpawned == old(totalGemasSpawned)
        invariant forall j :: 0 <= j < i ==> !SpawnOk(draws[j].0, draws[j].1, obstaculos, gemas)
      {
        var ok := PosicaoValida(draws[i].0, draws[i].1);
        if ok {
          FirstSpawnAt(draws, obstaculos, gemas, i);
          var nova := new Gema(draws[i].0 as real, draws[i].1 as real);
          DistinctSnoc(gemas, nova);
          gemas := gemas + [nova];
          totalGemasSpawned := totalGemasSpawned + 1;
          return;
        }
        i := i + 1;
      }
      FirstSpawnAt(draws, obstaculos, gemas, i);
    }

    /** The two checks of _spawnar_gema on one drawn position. */
    method PosicaoValida(x: int, y: int) returns (ok: bool)
      ensures ok == SpawnOk(x, y, obstaculos, gemas)
    {
      ok := Livre(BoxAt(x, y));
      if ok {
        var k := 0;
        while k < |gemas|
          invariant 0 <= k <= |gemas|
          invariant forall j :: 0 <= j < k ==>
            DistSq(x as real, y as real, gemas[j].x, gemas[j].y) >= (9 * TAMANHO_GEMA * TAMANHO_GEMA) as real
        {
          if DistSq(x as real, y as real, gemas[k].x, gemas[k].y) < (9 * TAMANHO_GEMA * TAMANHO_GEMA) as real {
            ok := false;
            return;
          }
          k := k + 1;
        }
      }
    }

    /** The loop over the obstacles: the rect collides with none of them. */
    method Livre(r: Rect) returns (ok: bool)
      ensures ok == Clear(r, obstaculos)
    {
      var k := 0;
      while k < |obstaculos|
        invariant 0 <= k <= |obstaculos|
        invariant forall j :: 0 <= j < k ==> !Overlaps(r, obstaculos[j])
      {
        if Overlaps(r, obstaculos[k]) {
          return false;
        }
        k := k + 1;
      }
      return true;
    }

    /**
     * coletar_gemas: every gem within reach that is not yet collected is
     * collected, and their number is returned; afterwards none is left to collect.
     */
    method ColetarGemas(jx: real, jy: real) returns (n: int)
      requires Valid()
      modifies gemas`coletada
      ensures n == old(CountCollectable(gemas, jx, jy))
      ensures forall k :: 0 <= k < |gemas| ==>
        gemas[k].coletada == (old(gemas[k].coletada) || InReach(gemas[k].x, gemas[k].y, jx, jy))
      ensures CountCollectable(gemas, jx, jy) == 0
    {
      n := 0;
      var i := 0;
      while i < |gemas|
        invariant 0 <= i <= |gemas|
        invariant n == old(CountCollectable(gemas[..i], jx, jy))
        invariant forall k :: 0 <= k < i ==>
          gemas[k].coletada == (old(gemas[k].coletada) || InReach(gemas[k].x, gemas[k].y, jx, jy))
        invariant forall k :: i <= k < |gemas| ==> gemas[k].coletada == old(gemas[k].coletada)
      {
        var g := gemas[i];
        assert gemas[..i + 1][..i] == gemas[..i];
        assert forall k :: 0 <= k < |gemas| && k != i ==> gemas[k] != g;
        if g.PodeSerColetada(jx, jy) {
          g.Coletar();
          n := n + 1;
        }
        i := i + 1;
      }
      assert gemas[..i] == gemas;
      CountCollectableZero(gemas, jx, jy);
    }

    /** reset: no gems, both counters at zero, the spawn timer restarted. */
    method Reset()
      modifies this`gemas, this`tempoProximoSpawn, this`totalGemasSpawned, this`gemasColetadas
      ensures Valid() && gemas == [] && tempoProximoSpawn == INTERVALO_SPAWN_GEMA
      ensures totalGemasSpawned == 0 && gemasColetadas == 0
    {
      gemas := [];
      tempoProximoSpawn := INTERVALO_SPAWN_GEMA;
      totalGemasSpawned := 0;
      gemasColetadas := 0;
    }

    /** dropar_gema: one new gem at DropSpot, whatever the number of gems already on the map. */
    method DroparGema(x0: real, y0: real) returns (ghost nova: Gema)
      requires Valid()
      modifies this`gemas, this`totalGemasSpawned
      ensures Valid() && gemas == old(gemas) + [nova]
      ensures fresh(nova) && !nova.coletada && (nova.x, nova.y) == DropSpot(largura, altura, obstaculos, x0, y0)
      ensures totalGemasSpawned == old(totalGemasSpawned) + 1
    {
      var margem := TAMANHO_GEMA as real;
      var x := Clamp(x0, margem, largura as real - margem);
      var y := Clamp(y0, margem, altura as real - margem);
      var gemaRect := GemBox(x, y);
      var k := 0;
      while k < |obstaculos|
        invariant 0 <= k <= |obstaculos|
        invariant forall j :: 0 <= j < k ==> !Overlaps(gemaRect, obstaculos[j])
      {
        if Overlaps(gemaRect, obstaculos[k]) {
          var achado := BuscarPerto(Trunc(x) + Offset(0), Trunc(y));
          if achado.Some? {
            x, y := achado.value.0 as real, achado.value.1 as real;
          }
          break;
        }
        k := k + 1;
      }
      var g := new Gema(x, y);
      DistinctSnoc(gemas, g);
      gemas := gemas + [g];
      totalGemasSpawned := totalGemasSpawned + 1;
      nova := g;
    }

    /**
     * The search dropar_gema runs around a blocked point. Its loop over the
     * columns int(x) - 20 ... int(x) + 20 stops after the first column, found
     * or not, because `posicao_valida` is still true from before; so this is
     * the loop over the rows of that one column tx, stopping at the first free row.
     */
    method BuscarPerto(tx: int, ty0: int) returns (r: Option<(int, int)>)
      ensures r == ColumnSearch(tx, ty0, largura, altura, obstaculos)
    {
      var b := 0;
      while b < PASSOS_BUSCA
        invariant 0 <= b <= PASSOS_BUSCA
        invariant forall j :: 0 <= j < b ==> !FreeRows(tx, ty0, largura, altura, obstaculos)[j]
      {
        var ty := ty0 + Offset(b);
        if TAMANHO_GEMA <= tx <= largura - TAMANHO_GEMA && TAMANHO_GEMA <= ty <= altura - TAMANHO_GEMA {
          var livre := Livre(BoxAt(tx, ty));
          if livre {
            FirstTrueAt(FreeRows(tx, ty0, largura, altura, obstaculos), b);
            return Some((tx, ty));
          }
        }
        b := b + 1;
      }
      FirstTrueAt(FreeRows(tx, ty0, largura, altura, obstaculos), b);
      return None;
    }
  }

  /**
   * The loop of update over a copy of the list: each collected gem is
   * removed (list.remove) and counted. The list is worked on in a local;
   * nothing reads it before it is stored.
   */
  method SemColetadas(gemas: seq<Gema>) returns (lista: seq<Gema>, removidas: int)
    ensures lista == Uncollected(gemas)
    ensures removidas == |gemas| - |lista|
  {
    var copia := gemas;
    lista := gemas;
    removidas := 0;
    var i := 0;
    while i < |copia|
      invariant 0 <= i <= |copia|
      invariant lista == Uncollected(copia[..i]) + copia[i..]
      invariant removidas == i - |Uncollected(copia[..i])|
    {
      var g := copia[i];
      RemoveStep(copia, i);
      if g.coletada {
        lista := RemoveFirst(lista, g);
        removidas := removidas + 1;
      }
      i := i + 1;
    }
    assert copia[..i] == copia;
  }

  /** Two coletar_gemas calls in a row at the same point: the second collects nothing. */
  method ColetarDuasVezes(m: GerenciadorGemas, jx: real, jy: real) returns (primeira: int, segunda: int)
    requires m.Valid()
    modifies m.gemas`coletada
    ensures primeira == old(CountCollectable(m.gemas, jx, jy)) && segunda == 0
  {
    primeira := m.ColetarGemas(jx, jy);
    segunda := m.ColetarGemas(jx, jy);
  }
}
