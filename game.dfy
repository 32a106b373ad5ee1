/**
 * The bookkeeping of the game loop in src/game.py: the per-frame pass that
 * resolves player shots against enemies (through the collision optimizer's
 * quadtree) and then obstacles, the difficulty levels, and the choice of a
 * respawn point, and the gems dropped on the player's death. In the pass an enemy is seen through its rect and `vida`,
 * an obstacle through its rect and `destrutivel`; visual and audio effects
 * are left out. An enemy's id in the tree is its index in the enemy list.
 */
module Games {
  import opened Geometry
  import opened QuadTrees
  import opened Bullets
  import opened CollisionSystem
  import opened Seqs
  import Gems

  const PONTOS_POR_NIVEL: int := 100
  const NIVEL_MAXIMO: int := 20
  const VELOCIDADE_INIMIGO_BASE: real := 80.0
  const QUANTIDADE_INIMIGOS_BASE: int := 2
  const MULTIPLICADOR_VELOCIDADE_POR_NIVEL: real := 1.2
  const MULTIPLICADOR_TIRO_POR_NIVEL: real := 1.15
  const INIMIGOS_ADICIONAIS_POR_NIVEL: int := 1
  /** The later of the two definitions in src/config.py. */
  const PONTOS_DESTRUIR_OBSTACULO: int := 25
  const PONTOS_INIMIGO: int := 100
  const TAMANHO_JOGADOR: int := 20
  const AREA_RESPAWN_MARGEM: int := 100
  const DISTANCIA_MINIMA_INIMIGOS_RESPAWN: int := 150

  /** An enemy as the shot pass sees it. */
  datatype Foe = Foe(rect: Rect, vida: int)

  /** An obstacle as the shot pass sees it. */
  datatype Block = Block(rect: Rect, destrutivel: bool)

  /** A player shot as the shot pass sees it. */
  datatype Shot = Shot(rect: Rect, dano: int)

  /** What the shot pass changes in the game. */
  datatype World = World(foes: seq<Foe>, blocks: seq<Block>, pontuacao: int, danoTotal: int, eliminados: int)

  /**
   * The state of a pass after some shots: the world, how many calls into the
   * obstacles' receber_dano were made, and for each shot whether it was stopped.
   */
  datatype Outcome = Outcome(w: World, calls: nat, stopped: seq<bool>)

  // ---------------------------------------------------------------------
  // Filters of the pass
  // ---------------------------------------------------------------------

  /** The objects handed to add_objects: the enemies with vida > 0, in order, with their index as id. */
  function LiveObjects(foes: seq<Foe>): (r: seq<GameObject>)
    ensures |r| <= |foes|
  {
    if foes == [] then []
    else
      var n := |foes| - 1;
      LiveObjects(foes[..n]) + (if foes[n].vida > 0 then [WithRect(Sprite(n, foes[n].rect, None))] else [])
  }

  /** Exactly the living enemies enter the tree, each under its own index and rect. */
  lemma {:induction false} LiveObjectsMembers(foes: seq<Foe>)
    ensures forall o :: o in LiveObjects(foes) <==>
      o.WithRect? && o.sprite.id < |foes| && foes[o.sprite.id].vida > 0 &&
      o.sprite == Sprite(o.sprite.id, foes[o.sprite.id].rect, None)
  {
    if foes != [] {
      var n := |foes| - 1;
      LiveObjectsMembers(foes[..n]);
    }
  }

  /** _tiro_ativo_jogador: a shot counts for the player unless it is inactive or an enemy's. */
  predicate TiroAtivoJogador(b: Bullet)
    reads b`ativo, b`deInimigo
  {
    b.ativo && !b.deInimigo
  }

  /** The player's shots among the shots, in order. */
  function PlayerShots(tiros: seq<Bullet>): (r: seq<Bullet>)
    reads tiros`ativo, tiros`deInimigo
    ensures |r| <= |tiros| && forall k :: 0 <= k < |r| ==> r[k] in tiros
  {
    if tiros == [] then []
    else
      var n := |tiros| - 1;
      PlayerShots(tiros[..n]) + (if TiroAtivoJogador(tiros[n]) then [tiros[n]] else [])
  }

  /** The shot filter rejects exactly the inactive shots and the enemies' shots. */
  lemma {:induction false} PlayerShotsMembers(tiros: seq<Bullet>)
    ensures forall b :: b in PlayerShots(tiros) <==> b in tiros && b.ativo && !b.deInimigo
  {
    if tiros != [] {
      var n := |tiros| - 1;
      assert tiros == tiros[..n] + [tiros[n]];
      PlayerShotsMembers(tiros[..n]);
    }
  }

  /** The rect and damage of each shot. */
  function ShotsOf(bs: seq<Bullet>): (r: seq<Shot>)
    reads bs`rect, bs`dano
    ensures |r| == |bs|
  {
    if bs == [] then [] else ShotsOf(bs[..|bs| - 1]) + [Shot(bs[|bs| - 1].rect, bs[|bs| - 1].dano)]
  }

  lemma {:induction false} ShotsOfAt(bs: seq<Bullet>, k: int)
    requires 0 <= k < |bs|
    ensures ShotsOf(bs)[k] == Shot(bs[k].rect, bs[k].dano)
  {
    if k < |bs| - 1 {
      assert bs[..|bs| - 1][k] == bs[k];
      ShotsOfAt(bs[..|bs| - 1], k);
    }
  }

  /** The shots a pass stopped: the k-th shot when the k-th flag is set. */
  ghost function KilledSet(bs: seq<Bullet>, stopped: seq<bool>): set<Bullet>
  {
    set k | 0 <= k < |stopped| && k < |bs| && stopped[k] :: bs[k]
  }

  lemma KilledSetSnoc(bs: seq<Bullet>, stopped: seq<bool>, stop: bool)
    requires |stopped| < |bs|
    ensures KilledSet(bs, stopped + [stop]) == KilledSet(bs, stopped) + (if stop then {bs[|stopped|]} else {})
  {
    var l := KilledSet(bs, stopped + [stop]);
    var r := KilledSet(bs, stopped) + (if stop then {bs[|stopped|]} else {});
    forall b | b in l ensures b in r {
      var k :| 0 <= k < |stopped| + 1 && k < |bs| && (stopped + [stop])[k] && bs[k] == b;
      if k < |stopped| {
        assert b in KilledSet(bs, stopped);
      }
    }
    forall b | b in r ensures b in l {
      if b in KilledSet(bs, stopped) {
        var k :| 0 <= k < |stopped| && k < |bs| && stopped[k] && bs[k] == b;
        assert (stopped + [stop])[k];
      } else {
        assert (stopped + [stop])[|stopped|];
      }
    }
  }

  // ---------------------------------------------------------------------
  // The pass as a function of the tree and the shots
  // ---------------------------------------------------------------------

  /** Index of the first candidate that is a known enemy and overlaps q, or |cands| when none does. */
  function FirstCandidate(cands: seq<Sprite>, q: Rect, n: int): (k: nat)
    ensures k <= |cands|
    ensures k < |cands| ==> cands[k].id < n && Overlaps(q, cands[k].rect)
    ensures forall j :: 0 <= j < k ==> !(cands[j].id < n && Overlaps(q, cands[j].rect))
  {
    if cands == [] then 0
    else if cands[0].id < n && Overlaps(q, cands[0].rect) then 0
    else 1 + FirstCandidate(cands[1..], q, n)
  }

  /** Index of the first obstacle whose rect overlaps q, or |blocks| when none does. */
  function FirstBlock(q: Rect, blocks: seq<Block>): (j: nat)
    ensures j <= |blocks|
    ensures j < |blocks| ==> Overlaps(q, blocks[j].rect)
    ensures forall i :: 0 <= i < j ==> !Overlaps(q, blocks[i].rect)
  {
    if blocks == [] then 0
    else if Overlaps(q, blocks[0].rect) then 0
    else 1 + FirstBlock(q, blocks[1..])
  }

  /**
   * _processar_dano_inimigo: the damage is counted, the enemy's vida drops
   * to max(vida - dano, 0), and when it is then at most 0 the death is
   * counted and scored, whatever the enemy's vida was before.
   */
  function HitFoe(w: World, k: int, dano: int): (r: World)
    requires 0 <= k < |w.foes|
    ensures |r.foes| == |w.foes| && r.blocks == w.blocks && r.danoTotal == w.danoTotal + dano
    ensures r.foes[k] == w.foes[k].(vida := Max(w.foes[k].vida - dano, 0))
    ensures forall j :: 0 <= j < |w.foes| && j != k ==> r.foes[j] == w.foes[j]
    ensures r.foes[k].vida >= 0
    ensures r.foes[k].vida == 0 <==> w.foes[k].vida <= dano
    ensures r.eliminados == w.eliminados + (if w.foes[k].vida <= dano then 1 else 0)
    ensures r.pontuacao == w.pontuacao + (if w.foes[k].vida <= dano then PONTOS_INIMIGO else 0)
  {
    var v := Max(w.foes[k].vida - dano, 0);
    var dead := v <= 0;
    w.(foes := w.foes[k := w.foes[k].(vida := v)],
       danoTotal := w.danoTotal + dano,
       eliminados := w.eliminados + (if dead then 1 else 0),
       pontuacao := w.pontuacao + (if dead then PONTOS_INIMIGO else 0))
  }

  /** The obstacle list without its j-th entry, as Group.remove leaves it. */
  function RemoveAt<T>(s: seq<T>, j: int): (r: seq<T>)
    requires 0 <= j < |s|
    ensures |r| == |s| - 1
    ensures forall i :: 0 <= i < j ==> r[i] == s[i]
    ensures forall i :: j <= i < |r| ==> r[i] == s[i + 1]
  {
    s[..j] + s[j + 1..]
  }

  /**
   * _processar_colisoes_tiros_obstaculos for one shot: the first obstacle it
   * overlaps stops it; a destructible one takes the damage and, when the
   * call reports it destroyed, is removed and scores 25.
   */
  function HitBlocks(o: Outcome, q: Rect, destroyed: nat -> bool): (r: Outcome)
    ensures r.w.foes == o.w.foes && r.w.danoTotal == o.w.danoTotal && r.w.eliminados == o.w.eliminados
    ensures r.stopped == o.stopped + [FirstBlock(q, o.w.blocks) < |o.w.blocks|]
    ensures r.calls == o.calls + (if FirstBlock(q, o.w.blocks) < |o.w.blocks| &&
                                     o.w.blocks[FirstBlock(q, o.w.blocks)].destrutivel then 1 else 0)
    ensures r.w.pontuacao == o.w.pontuacao || r.w.pontuacao == o.w.pontuacao + PONTOS_DESTRUIR_OBSTACULO
    ensures |r.w.blocks| == |o.w.blocks| || |r.w.blocks| == |o.w.blocks| - 1
    ensures r.w.pontuacao == o.w.pontuacao + PONTOS_DESTRUIR_OBSTACULO <==> |r.w.blocks| < |o.w.blocks|
  {
    var j := FirstBlock(q, o.w.blocks);
    if j == |o.w.blocks| then o.(stopped := o.stopped + [false])
    else if !o.w.blocks[j].destrutivel then o.(stopped := o.stopped + [true])
    else if destroyed(o.calls) then
      Outcome(o.w.(blocks := RemoveAt(o.w.blocks, j), pontuacao := o.w.pontuacao + PONTOS_DESTRUIR_OBSTACULO),
              o.calls + 1, o.stopped + [true])
    else
      Outcome(o.w, o.calls + 1, o.stopped + [true])
  }

  /**
   * One shot of the pass, given the candidates retrieve returned for it: the
   * first candidate that is still an enemy and overlaps the shot takes the
   * hit and the shot is stopped; with no such candidate the obstacles are tried.
   */
  function Step(cands: seq<Sprite>, o: Outcome, s: Shot, destroyed: nat -> bool): (r: Outcome)
    ensures |r.w.foes| == |o.w.foes| && |r.stopped| == |o.stopped| + 1
  {
    var k := FirstCandidate(cands, s.rect, |o.w.foes|);
    if k < |cands| then Outcome(HitFoe(o.w, cands[k].id, s.dano), o.calls, o.stopped + [true])
    else HitBlocks(o, s.rect, destroyed)
  }

  /** The candidates the tree yields for each shot. */
  function Candidates(t: QuadTree, shots: seq<Shot>): (r: seq<seq<Sprite>>)
    requires Valid(t)
    ensures |r| == |shots|
  {
    if shots == [] then [] else Candidates(t, shots[..|shots| - 1]) + [Retrieve(t, shots[|shots| - 1].rect)]
  }

  lemma {:induction false} CandidatesAt(t: QuadTree, shots: seq<Shot>, k: int)
    requires Valid(t) && 0 <= k < |shots|
    ensures Candidates(t, shots)[k] == Retrieve(t, shots[k].rect)
  {
    if k < |shots| - 1 {
      assert shots[..|shots| - 1][k] == shots[k];
      CandidatesAt(t, shots[..|shots| - 1], k);
    }
  }

  /** The shots in order, the k-th resolved against the k-th candidate list. */
  function PassOn(cl: seq<seq<Sprite>>, shots: seq<Shot>, o: Outcome, destroyed: nat -> bool): (r: Outcome)
    requires |cl| == |shots|
    ensures |r.w.foes| == |o.w.foes| && |r.stopped| == |o.stopped| + |shots|
  {
    if shots == [] then o
    else
      var n := |shots| - 1;
      Step(cl[n], PassOn(cl[..n], shots[..n], o, destroyed), shots[n], destroyed)
  }

  /** The whole pass: the shots in order, every one against the same tree. */
  function Pass(t: QuadTree, shots: seq<Shot>, o: Outcome, destroyed: nat -> bool): (r: Outcome)
    requires Valid(t)
    ensures |r.w.foes| == |o.w.foes| && |r.stopped| == |o.stopped| + |shots|
  {
    PassOn(Candidates(t, shots), shots, o, destroyed)
  }

  lemma TakeAll<T>(s: seq<T>)
    ensures s[..|s|] == s
  {
  }

  /** The pass over one more shot is one more Step. */
  lemma PassAdvance(cl: seq<seq<Sprite>>, shots: seq<Shot>, i: int, o: Outcome, destroyed: nat -> bool,
                    before: Outcome, after: Outcome)
    requires |cl| == |shots| && 0 <= i < |shots|
    requires before == PassOn(cl[..i], shots[..i], o, destroyed) && after == Step(cl[i], before, shots[i], destroyed)
    ensures after == PassOn(cl[..i + 1], shots[..i + 1], o, destroyed)
  {
    assert shots[..i + 1][..i] == shots[..i];
    assert cl[..i + 1][..i] == cl[..i];
  }

  // ---------------------------------------------------------------------
  // What the pass promises
  // ---------------------------------------------------------------------

  /**
   * A shot hits an enemy only if that enemy is stored in the tree and
   * overlaps it; it misses all enemies only if no stored enemy of positive
   * size overlaps it (for a shot of positive size).
   */
  lemma HitIsSoundAndComplete(t: QuadTree, q: Rect, n: int)
    requires Valid(t)
    ensures FirstCandidate(Retrieve(t, q), q, n) < |Retrieve(t, q)| ==>
      Retrieve(t, q)[FirstCandidate(Retrieve(t, q), q, n)] in AllObjects(t)
    ensures FirstCandidate(Retrieve(t, q), q, n) == |Retrieve(t, q)| && q.Positive() ==>
      forall o :: o in AllObjects(t) && o.rect.Positive() && o.id < n ==> !Overlaps(q, o.rect)
  {
    var cands := Retrieve(t, q);
    var k := FirstCandidate(cands, q, n);
    RetrieveStored(t, q);
    if k == |cands| && q.Positive() {
      forall o | o in AllObjects(t) && o.rect.Positive() && o.id < n
        ensures !Overlaps(q, o.rect)
      {
        if Overlaps(q, o.rect) {
          OverlapsSymmetric(q, o.rect);
          NoFalseNegatives(t, q, o);
          assert false;
        }
      }
    }
  }

  /** A step damages at most one enemy, and only when it stops the shot. */
  lemma StepHitsAtMostOne(cands: seq<Sprite>, o: Outcome, s: Shot, destroyed: nat -> bool)
    ensures var r := Step(cands, o, s, destroyed);
      (forall j1, j2 :: 0 <= j1 < j2 < |o.w.foes| ==> r.w.foes[j1] == o.w.foes[j1] || r.w.foes[j2] == o.w.foes[j2]) &&
      (r.w.foes != o.w.foes ==> r.stopped[|o.stopped|])
  {
  }

  /**
   * An enemy driven to vida 0 stays in the enemy list and in the tree for the
   * rest of the pass: a second shot on it re-runs the death bookkeeping, so
   * one enemy with vida 50 hit by two 100-damage shots counts two kills and
   * 200 points.
   */
  lemma DeadEnemyScoresTwice(destroyed: nat -> bool)
    ensures var r := Rect(100, 100, 40, 40);
      var t := QuadTree(Rect(0, 0, SCREEN_WIDTH, SCREEN_HEIGHT), 15, 6, 0, [Sprite(0, r, None)], []);
      var shots := [Shot(r, 100), Shot(r, 100)];
      var o := Outcome(World([Foe(r, 50)], [], 0, 0, 0), 0, []);
      var p := Pass(t, shots, o, destroyed);
      p.w.eliminados == 2 && p.w.pontuacao == 2 * PONTOS_INIMIGO && p.w.foes[0].vida == 0
  {
    var r := Rect(100, 100, 40, 40);
    var t := QuadTree(Rect(0, 0, SCREEN_WIDTH, SCREEN_HEIGHT), 15, 6, 0, [Sprite(0, r, None)], []);
    var shots := [Shot(r, 100), Shot(r, 100)];
    var o := Outcome(World([Foe(r, 50)], [], 0, 0, 0), 0, []);
    var d := destroyed;
    RetrieveLeaf(t, r);
    var cl := Candidates(t, shots);
    CandidatesAt(t, shots, 0);
    CandidatesAt(t, shots, 1);
    assert cl == [[Sprite(0, r, None)], [Sprite(0, r, None)]];
    assert shots[..1][..0] == [] && cl[..1][..0] == [];
    var p1 := PassOn(cl[..1], shots[..1], o, d);
    assert PassOn(cl[..1][..0], shots[..1][..0], o, d) == o;
    assert p1 == Step(cl[0], o, Shot(r, 100), d);
    assert p1.w.eliminados == 1;
  }

  // ---------------------------------------------------------------------
  // Levels and enemy quota
  // ---------------------------------------------------------------------

  function Pow(x: real, n: nat): real
  {
    if n == 0 then 1.0 else x * Pow(x, n - 1)
  }

  /** The enemy quota once the level has climbed from 1 to n: one more enemy at every even level. */
  function Quota(n: int): (q: int)
    requires n >= 1
    ensures q == QUANTIDADE_INIMIGOS_BASE + n / 2
  {
    if n == 1 then QUANTIDADE_INIMIGOS_BASE
    else Quota(n - 1) + (if n % 2 == 0 then INIMIGOS_ADICIONAIS_POR_NIVEL else 0)
  }

  /** The respawn test's 20x20 box centred on (x, y). */
  function RespawnBox(x: int, y: int): Rect
  {
    Rect(x - TAMANHO_JOGADOR / 2, y - TAMANHO_JOGADOR / 2, TAMANHO_JOGADOR, TAMANHO_JOGADOR)
  }

  /** Squared distance from (x, y) to an enemy rect's centre. */
  function CenterDistSq(x: int, y: int, r: Rect): int
  {
    (x - CenterX(r)) * (x - CenterX(r)) + (y - CenterY(r)) * (y - CenterY(r))
  }

  /**
   * _posicao_respawn_segura: the box clears every obstacle and the point is
   * at least 150 from every enemy centre (sqrt(d) < 150 iff d < 150 * 150
   * for a whole d >= 0).
   */
  predicate SafeSpot(x: int, y: int, blocks: seq<Block>, foes: seq<Foe>)
  {
    (forall j :: 0 <= j < |blocks| ==> !Overlaps(RespawnBox(x, y), blocks[j].rect)) &&
    (forall k :: 0 <= k < |foes| ==>
      CenterDistSq(x, y, foes[k].rect) >= DISTANCIA_MINIMA_INIMIGOS_RESPAWN * DISTANCIA_MINIMA_INIMIGOS_RESPAWN)
  }

  /** The respawn areas in the order tried: top left, top right, bottom left, bottom right. */
  function Corners(): seq<(int, int)>
  {
    [(AREA_RESPAWN_MARGEM, AREA_RESPAWN_MARGEM),
     (SCREEN_WIDTH - AREA_RESPAWN_MARGEM, AREA_RESPAWN_MARGEM),
     (AREA_RESPAWN_MARGEM, SCREEN_HEIGHT - AREA_RESPAWN_MARGEM),
     (SCREEN_WIDTH - AREA_RESPAWN_MARGEM, SCREEN_HEIGHT - AREA_RESPAWN_MARGEM)]
  }

  /** Index of the first safe corner, or 4 when none is safe. */
  function FirstSafeCorner(blocks: seq<Block>, foes: seq<Foe>, from: nat): (i: nat)
    requires from <= 4
    ensures from <= i <= 4
    ensures i < 4 ==> SafeSpot(Corners()[i].0, Corners()[i].1, blocks, foes)
    ensures forall j :: from <= j < i ==> !SafeSpot(Corners()[j].0, Corners()[j].1, blocks, foes)
    decreases 4 - from
  {
    if from == 4 then 4
    else if SafeSpot(Corners()[from].0, Corners()[from].1, blocks, foes) then from
    else FirstSafeCorner(blocks, foes, from + 1)
  }

  /** The game state that these operations update. */
  class Game {
    var nivelAtual: int
    var pontosProximoNivel: int
    var velocidadeInimigosAtual: real
    var multiplicadorTiroAtual: real
    var quantidadeInimigosAtual: int
    var pontuacao: int
    var danoTotalCausado: int
    var inimigosEliminados: int
    var inimigos: seq<Foe>
    var obstaculos: seq<Block>
    var collisionOptimizer: CollisionOptimizer
    var gemasColetadas: int
    var posicaoMorte: Option<(int, int)>
    var gerenciadorGemas: Gems.GerenciadorGemas?

    /**
     * The difficulty invariant: the level is between 1 and 20, the next
     * threshold is level * 100, speeds have been multiplied once per level
     * climbed, and the quota is as Quota says.
     */
    predicate LevelsValid()
      reads this
    {
      1 <= nivelAtual <= NIVEL_MAXIMO && pontosProximoNivel == nivelAtual * PONTOS_POR_NIVEL &&
      velocidadeInimigosAtual == VELOCIDADE_INIMIGO_BASE * Pow(MULTIPLICADOR_VELOCIDADE_POR_NIVEL, nivelAtual - 1) &&
      multiplicadorTiroAtual == Pow(MULTIPLICADOR_TIRO_POR_NIVEL, nivelAtual - 1) &&
      quantidadeInimigosAtual == Quota(nivelAtual)
    }

    /** A game at level 1 with the given world, its optimizer over the screen with 15 objects and 6 levels. */
    constructor (inimigos: seq<Foe>, obstaculos: seq<Block>)
      ensures LevelsValid() && nivelAtual == 1 && collisionOptimizer.Valid() && fresh(collisionOptimizer)
      ensures this.inimigos == inimigos && this.obstaculos == obstaculos
      ensures pontuacao == 0 && danoTotalCausado == 0 && inimigosEliminados == 0
      ensures gemasColetadas == 0 && posicaoMorte == None && gerenciadorGemas == null
    {
      nivelAtual := 1;
      pontosProximoNivel := PONTOS_POR_NIVEL;
      velocidadeInimigosAtual := VELOCIDADE_INIMIGO_BASE;
      multiplicadorTiroAtual := 1.0;
      quantidadeInimigosAtual := QUANTIDADE_INIMIGOS_BASE;
      pontuacao := 0;
      danoTotalCausado := 0;
      inimigosEliminados := 0;
      this.inimigos := inimigos;
      this.obstaculos := obstaculos;
      gemasColetadas := 0;
      posicaoMorte := None;
      gerenciadorGemas := null;
      collisionOptimizer := new CollisionOptimizer(Rect(0, 0, SCREEN_WIDTH, SCREEN_HEIGHT), 15, 6);
    }

    /** The difficulty part of the reset: back to level 1. */
    method ResetarDificuldade()
      modifies this
      ensures LevelsValid() && nivelAtual == 1 && quantidadeInimigosAtual == QUANTIDADE_INIMIGOS_BASE
      ensures pontuacao == old(pontuacao) && inimigos == old(inimigos) && obstaculos == old(obstaculos)
      ensures collisionOptimizer == old(collisionOptimizer)
    {
      nivelAtual := 1;
      pontosProximoNivel := PONTOS_POR_NIVEL;
      velocidadeInimigosAtual := VELOCIDADE_INIMIGO_BASE;
      quantidadeInimigosAtual := QUANTIDADE_INIMIGOS_BASE;
      multiplicadorTiroAtual := 1.0;
    }

    /**
     * verificar_aumento_nivel with subir_nivel: one level up when the score
     * has reached the threshold and the level is below 20, otherwise nothing.
     * Spawning the extra enemies and the sound are not modelled.
     */
    method VerificarAumentoNivel()
      modifies this
      ensures old(pontuacao >= pontosProximoNivel && nivelAtual < NIVEL_MAXIMO) ==>
        nivelAtual == old(nivelAtual) + 1 && pontosProximoNivel == nivelAtual * PONTOS_POR_NIVEL &&
        velocidadeInimigosAtual == old(velocidadeInimigosAtual) * MULTIPLICADOR_VELOCIDADE_POR_NIVEL &&
        multiplicadorTiroAtual == old(multiplicadorTiroAtual) * MULTIPLICADOR_TIRO_POR_NIVEL &&
        quantidadeInimigosAtual == old(quantidadeInimigosAtual) +
          (if nivelAtual % 2 == 0 then INIMIGOS_ADICIONAIS_POR_NIVEL else 0)
      ensures !old(pontuacao >= pontosProximoNivel && nivelAtual < NIVEL_MAXIMO) ==>
        nivelAtual == old(nivelAtual) && pontosProximoNivel == old(pontosProximoNivel) &&
        velocidadeInimigosAtual == old(velocidadeInimigosAtual) &&
        multiplicadorTiroAtual == old(multiplicadorTiroAtual) &&
        quantidadeInimigosAtual == old(quantidadeInimigosAtual)
      ensures old(LevelsValid()) ==> LevelsValid()
      ensures pontuacao == old(pontuacao) && inimigos == old(inimigos) && obstaculos == old(obstaculos)
      ensures collisionOptimizer == old(collisionOptimizer)
    {
      if pontuacao >= pontosProximoNivel && nivelAtual < NIVEL_MAXIMO {
        SubirNivel();
      }
    }

    method SubirNivel()
      modifies this
      ensures nivelAtual == old(nivelAtual) + 1 && pontosProximoNivel == nivelAtual * PONTOS_POR_NIVEL
      ensures velocidadeInimigosAtual == old(velocidadeInimigosAtual) * MULTIPLICADOR_VELOCIDADE_POR_NIVEL
      ensures multiplicadorTiroAtual == old(multiplicadorTiroAtual) * MULTIPLICADOR_TIRO_POR_NIVEL
      ensures quantidadeInimigosAtual == old(quantidadeInimigosAtual) +
        (if nivelAtual % 2 == 0 then INIMIGOS_ADICIONAIS_POR_NIVEL else 0)
      ensures old(LevelsValid()) && old(nivelAtual) < NIVEL_MAXIMO ==> LevelsValid()
      ensures pontuacao == old(pontuacao) && inimigos == old(inimigos) && obstaculos == old(obstaculos)
      ensures collisionOptimizer == old(collisionOptimizer)
    {
      nivelAtual := nivelAtual + 1;
      pontosProximoNivel := nivelAtual * PONTOS_POR_NIVEL;
      velocidadeInimigosAtual := velocidadeInimigosAtual * MULTIPLICADOR_VELOCIDADE_POR_NIVEL;
      multiplicadorTiroAtual := multiplicadorTiroAtual * MULTIPLICADOR_TIRO_POR_NIVEL;
      if nivelAtual % 2 == 0 {
        quantidadeInimigosAtual := quantidadeInimigosAtual + INIMIGOS_ADICIONAIS_POR_NIVEL;
      }
    }

    // -------------------------------------------------------------------
    // The shot pass
    // -------------------------------------------------------------------

    function WorldNow(): World
      reads this
    {
      World(inimigos, obstaculos, pontuacao, danoTotalCausado, inimigosEliminados)
    }

    /** _processar_dano_inimigo on the enemy with index k; the shot is killed. */
    method ProcessarDanoInimigo(tiro: Bullet, k: int)
      requires 0 <= k < |inimigos|
      modifies this`inimigos, this`pontuacao, this`danoTotalCausado, this`inimigosEliminados, tiro`alive
      ensures WorldNow() == HitFoe(old(WorldNow()), k, tiro.dano) && !tiro.alive
    {
      var dano := tiro.dano;
      danoTotalCausado := danoTotalCausado + dano;
      var v := Max(inimigos[k].vida - dano, 0);
      inimigos := inimigos[k := inimigos[k].(vida := v)];
      tiro.Kill();
      if inimigos[k].vida <= 0 {
        inimigosEliminados := inimigosEliminados + 1;
        pontuacao := pontuacao + PONTOS_INIMIGO;
      }
    }

    /**
     * _processar_colisoes_tiros_obstaculos for one shot; `destroyed(calls)`
     * is the answer of the calls-th call into an obstacle's receber_dano.
     */
    method ProcessarColisoesTirosObstaculos(tiro: Bullet, calls: nat, ghost stopped: seq<bool>, destroyed: nat -> bool)
      returns (calls': nat, stop: bool)
      modifies this`obstaculos, this`pontuacao, tiro`alive
      ensures HitBlocks(Outcome(old(WorldNow()), calls, stopped), tiro.rect, destroyed) ==
        Outcome(WorldNow(), calls', stopped + [stop])
      ensures tiro.alive == (old(tiro.alive) && !stop)
    {
      calls', stop := calls, false;
      var j := 0;
      while j < |obstaculos|
        invariant 0 <= j <= |obstaculos|
        invariant forall i :: 0 <= i < j ==> !Overlaps(tiro.rect, obstaculos[i].rect)
        invariant obstaculos == old(obstaculos) && pontuacao == old(pontuacao) && tiro.alive == old(tiro.alive)
        invariant calls' == calls && !stop
      {
        if Overlaps(tiro.rect, obstaculos[j].rect) {
          assert FirstBlock(tiro.rect, obstaculos) == j by { FirstBlockAt(tiro.rect, obstaculos, j); }
          if obstaculos[j].destrutivel {
            var destruido := destroyed(calls');
            calls' := calls' + 1;
            if destruido {
              obstaculos := RemoveAt(obstaculos, j);
              pontuacao := pontuacao + PONTOS_DESTRUIR_OBSTACULO;
            }
          }
          tiro.Kill();
          stop := true;
          return;
        }
        j := j + 1;
      }
      FirstBlockAt(tiro.rect, obstaculos, j);
    }

    predicate Valid()
      reads this, collisionOptimizer
    {
      collisionOptimizer.Valid()
    }

    /**
     * _processar_colisoes_tiros: the tree is cleared and filled once with the
     * living enemies; then each player shot, in order, is resolved by Step
     * against that same tree. Shots that are stopped are killed; nothing
     * else about the shots changes.
     */
    method ProcessarColisoesTiros(tiros: seq<Bullet>, destroyed: nat -> bool)
      requires Valid()
      modifies this`inimigos, this`pontuacao, this`danoTotalCausado, this`inimigosEliminados, this`obstaculos
      modifies collisionOptimizer, PlayerShots(tiros)`alive
      ensures Valid()
      ensures multiset(AllObjects(collisionOptimizer.quadtree)) == multiset(Insertable(LiveObjects(old(inimigos))))
      ensures var shots := old(PlayerShots(tiros));
        var r := Pass(collisionOptimizer.quadtree, old(ShotsOf(shots)), Outcome(old(WorldNow()), 0, []), destroyed);
        WorldNow() == r.w &&
        forall b :: b in shots ==> b.alive == (old(b.alive) && b !in KilledSet(shots, r.stopped))
    {
      PreencherOtimizador();
      var jogador := PlayerShots(tiros);
      assert jogador == old(PlayerShots(tiros)) && WorldNow() == old(WorldNow());
      assert ShotsOf(jogador) == old(ShotsOf(PlayerShots(tiros)));
      assert forall b :: b in jogador ==> b.alive == old(b.alive);
      ResolverTiros(jogador, destroyed);
    }

    /** The first two steps of _processar_colisoes_tiros: clear the tree, then add the living enemies. */
    method PreencherOtimizador()
      requires Valid()
      modifies collisionOptimizer
      ensures Valid()
      ensures multiset(AllObjects(collisionOptimizer.quadtree)) == multiset(Insertable(LiveObjects(inimigos)))
    {
      collisionOptimizer.Clear();
      ExcludingAbsent(AllObjects(collisionOptimizer.quadtree), {});
      collisionOptimizer.AddObjects(LiveObjects(inimigos));
    }

    /** The loop of _processar_colisoes_tiros over the player's shots, against the current tree. */
    method ResolverTiros(jogador: seq<Bullet>, destroyed: nat -> bool)
      requires collisionOptimizer.Valid()
      modifies this`inimigos, this`pontuacao, this`danoTotalCausado, this`inimigosEliminados, this`obstaculos
      modifies jogador`alive
      ensures var r := Pass(collisionOptimizer.quadtree, old(ShotsOf(jogador)), Outcome(old(WorldNow()), 0, []), destroyed);
        WorldNow() == r.w &&
        forall b :: b in jogador ==> b.alive == (old(b.alive) && b !in KilledSet(jogador, r.stopped))
    {
      var t := collisionOptimizer.quadtree;
      ghost var shots := ShotsOf(jogador);
      forall k | 0 <= k < |jogador| ensures shots[k] == Shot(jogador[k].rect, jogador[k].dano) {
        ShotsOfAt(jogador, k);
      }
      ghost var cl := Candidates(t, shots);
      ghost var o0 := Outcome(WorldNow(), 0, []);
      var calls: nat := 0;
      ghost var stopped: seq<bool> := [];
      ghost var a0 := set b | b in jogador && b.alive;
      var i := 0;
      while i < |jogador|
        invariant PassInv(jogador, i, t, shots, cl, o0, calls, stopped, a0, destroyed)
      {
        ghost var stop;
        calls, stop := AvancarTiro(jogador, i, t, shots, cl, o0, calls, stopped, a0, destroyed);
        stopped := stopped + [stop];
        i := i + 1;
      }
      TakeAll(shots);
      TakeAll(cl);
    }

    /**
     * The loop invariant of ResolverTiros after the first i shots: the tree and the shots' rectangles are those
     * the pass started from, the world is the pass over the first i shots, and a shot is still alive exactly
     * when it was alive at the start and none of those i steps stopped it.
     */
    ghost predicate PassInv(jogador: seq<Bullet>, i: int, t: QuadTree, shots: seq<Shot>, cl: seq<seq<Sprite>>,
                            o0: Outcome, calls: nat, stopped: seq<bool>, a0: set<Bullet>, destroyed: nat -> bool)
      reads this, collisionOptimizer, jogador`alive, jogador`rect, jogador`dano
    {
      && 0 <= i <= |jogador| && |stopped| == i && |shots| == |jogador|
      && collisionOptimizer.Valid() && collisionOptimizer.quadtree == t && cl == Candidates(t, shots)
      && (forall k {:trigger jogador[k]} :: 0 <= k < |jogador| ==> shots[k] == Shot(jogador[k].rect, jogador[k].dano))
      && Outcome(WorldNow(), calls, stopped) == PassOn(cl[..i], shots[..i], o0, destroyed)
      && forall b :: b in jogador ==> b.alive == (b in a0 && b !in KilledSet(jogador, stopped))
    }

    /** One turn of the loop in ResolverTiros: the i-th shot is resolved and the pass advances by one Step. */
    method AvancarTiro(jogador: seq<Bullet>, i: int, t: QuadTree, ghost shots: seq<Shot>, ghost cl: seq<seq<Sprite>>,
                       ghost o0: Outcome, calls: nat, ghost stopped: seq<bool>, ghost a0: set<Bullet>,
                       destroyed: nat -> bool)
      returns (calls': nat, stop: bool)
      requires i < |jogador| && PassInv(jogador, i, t, shots, cl, o0, calls, stopped, a0, destroyed)
      modifies this`inimigos, this`pontuacao, this`danoTotalCausado, this`inimigosEliminados, this`obstaculos
      modifies {jogador[i]}`alive
      ensures PassInv(jogador, i + 1, t, shots, cl, o0, calls', stopped + [stop], a0, destroyed)
    {
      ghost var before := Outcome(WorldNow(), calls, stopped);
      CandidatesAt(t, shots, i);
      calls', stop := ProcessarTiro(t, jogador[i], cl[i], calls, stopped, destroyed);
      PassAdvance(cl, shots, i, o0, destroyed, before, Outcome(WorldNow(), calls', stopped + [stop]));
      KilledSetSnoc(jogador, stopped, stop);
    }

    /**
     * One iteration of the shot loop: the candidate scan, then the obstacles
     * when no enemy was hit; `stop` tells whether the shot was stopped.
     */
    method ProcessarTiro(t: QuadTree, tiro: Bullet, ghost retrieved: seq<Sprite>, calls: nat, ghost stopped: seq<bool>,
                         destroyed: nat -> bool)
      returns (calls': nat, stop: bool)
      requires collisionOptimizer.Valid() && collisionOptimizer.quadtree == t && retrieved == Retrieve(t, tiro.rect)
      modifies this`inimigos, this`pontuacao, this`danoTotalCausado, this`inimigosEliminados, this`obstaculos, tiro`alive
      ensures Step(retrieved, Outcome(old(WorldNow()), calls, stopped), Shot(tiro.rect, tiro.dano), destroyed) ==
        Outcome(WorldNow(), calls', stopped + [stop])
      ensures tiro.alive == (old(tiro.alive) && !stop)
    {
      var cands := collisionOptimizer.GetCollisionCandidates(tiro.rect);
      var k := 0;
      while k < |cands|
        invariant 0 <= k <= |cands|
        invariant forall j :: 0 <= j < k ==> !(cands[j].id < |inimigos| && Overlaps(tiro.rect, cands[j].rect))
      {
        if cands[k].id < |inimigos| && Overlaps(tiro.rect, cands[k].rect) {
          FirstCandidateAt(cands, tiro.rect, |inimigos|, k);
          ProcessarDanoInimigo(tiro, cands[k].id);
          calls', stop := calls, true;
          return;
        }
        k := k + 1;
      }
      FirstCandidateAt(cands, tiro.rect, |inimigos|, k);
      calls', stop := ProcessarColisoesTirosObstaculos(tiro, calls, stopped, destroyed);
    }

    // -------------------------------------------------------------------
    // Respawn
    // -------------------------------------------------------------------

    /** _posicao_respawn_segura, with its two loops and early returns. */
    method PosicaoRespawnSegura(x: int, y: int) returns (ok: bool)
      ensures ok == SafeSpot(x, y, obstaculos, inimigos)
    {
      var box := RespawnBox(x, y);
      var j := 0;
      while j < |obstaculos|
        invariant 0 <= j <= |obstaculos|
        invariant forall i :: 0 <= i < j ==> !Overlaps(box, obstaculos[i].rect)
      {
        if Overlaps(box, obstaculos[j].rect) {
          return false;
        }
        j := j + 1;
      }
      var k := 0;
      while k < |inimigos|
        invariant 0 <= k <= |inimigos|
        invariant forall i :: 0 <= i < k ==>
          CenterDistSq(x, y, inimigos[i].rect) >= DISTANCIA_MINIMA_INIMIGOS_RESPAWN * DISTANCIA_MINIMA_INIMIGOS_RESPAWN
      {
        if CenterDistSq(x, y, inimigos[k].rect) < DISTANCIA_MINIMA_INIMIGOS_RESPAWN * DISTANCIA_MINIMA_INIMIGOS_RESPAWN {
          return false;
        }
        k := k + 1;
      }
      return true;
    }

    /**
     * _encontrar_posicao_respawn_segura: the first safe corner in the fixed
     * order, else the screen centre; a corner is returned only when it is
     * safe and every earlier corner is not.
     */
    method EncontrarPosicaoRespawnSegura() returns (p: (int, int))
      ensures var i := FirstSafeCorner(obstaculos, inimigos, 0);
        p == (if i < 4 then Corners()[i] else (SCREEN_WIDTH / 2, SCREEN_HEIGHT / 2))
      ensures p in Corners() ==> SafeSpot(p.0, p.1, obstaculos, inimigos)
      ensures p !in Corners() ==> forall c :: c in Corners() ==> !SafeSpot(c.0, c.1, obstaculos, inimigos)
    {
      var areas := Corners();
      var i := 0;
      while i < 4
        invariant 0 <= i <= 4
        invariant FirstSafeCorner(obstaculos, inimigos, 0) == FirstSafeCorner(obstaculos, inimigos, i)
      {
        var ok := PosicaoRespawnSegura(areas[i].0, areas[i].1);
        if ok {
          return areas[i];
        }
        i := i + 1;
      }
      return (SCREEN_WIDTH / 2, SCREEN_HEIGHT / 2);
    }

    /**
     * _dropar_gemas_morte: with a gem manager and a death position, q =
     * min(gemas_coletadas, 5) gems are dropped around that position as
     * DroparEmCirculo says, and the carried gems go down by q, to
     * max(gemas_coletadas - 5, 0). The source then clamps a negative count to
     * zero; that branch cannot run, since g - min(g, 5) is never negative.
     * Without a manager or a position nothing happens.
     */
    method DroparGemasMorte(circulo: (int, int) -> (real, real))
      requires gerenciadorGemas != null ==> gerenciadorGemas.Valid()
      modifies this`gemasColetadas, gerenciadorGemas
      ensures var m := gerenciadorGemas;
        m != null ==> m.Valid() && m.tempoProximoSpawn == old(m.tempoProximoSpawn) && m.gemasColetadas == old(m.gemasColetadas)
      ensures var m := gerenciadorGemas;
        if m != null && posicaoMorte.Some? then
          gemasColetadas == Max(old(gemasColetadas) - 5, 0) &&
          DroppedAround(m, old(m.gemas), old(m.totalGemasSpawned), posicaoMorte.value, Min(old(gemasColetadas), 5), circulo)
        else
          gemasColetadas == old(gemasColetadas) &&
          (m != null ==> m.gemas == old(m.gemas) && m.totalGemasSpawned == old(m.totalGemasSpawned))
    {
      var m := gerenciadorGemas;
      if m != null && posicaoMorte.Some? {
        var quantidade := Min(gemasColetadas, 5);
        DroparEmCirculo(m, posicaoMorte.value, quantidade, circulo);
        gemasColetadas := gemasColetadas - quantidade;
      }
    }
  }

  /**
   * After the loop of _dropar_gemas_morte: the manager's list grew by q gems
   * (none when q <= 0), the earlier gems unchanged, the spawn counter up by
   * as many, and the i-th new gem at DropSpot of the death position p moved
   * by circulo(i, q), the offset (30 cos, 30 sin) of the angle i / q * 2 *
   * 3.14159.
   */
  ghost predicate DroppedAround(m: Gems.GerenciadorGemas, before: seq<Gems.Gema>, total0: int,
                                p: (int, int), q: int, circulo: (int, int) -> (real, real))
    reads m
  {
    |m.gemas| == |before| + Max(q, 0) && m.gemas[..|before|] == before &&
    m.totalGemasSpawned == total0 + Max(q, 0) &&
    forall i :: 0 <= i < q ==>
      (m.gemas[|before| + i].x, m.gemas[|before| + i].y) ==
        Gems.DropSpot(m.largura, m.altura, m.obstaculos, p.0 as real + circulo(i, q).0, p.1 as real + circulo(i, q).1)
  }

  /** The i-th of the gems dropped lies at alvo(i). */
  ghost predicate SpotsAround(novas: seq<Gems.Gema>, alvo: int -> (real, real))
  {
    forall j :: 0 <= j < |novas| ==> (novas[j].x, novas[j].y) == alvo(j)
  }

  lemma SpotsAroundSnoc(novas: seq<Gems.Gema>, nova: Gems.Gema, alvo: int -> (real, real))
    requires SpotsAround(novas, alvo) && (nova.x, nova.y) == alvo(|novas|)
    ensures SpotsAround(novas + [nova], alvo)
  {
    assert forall j :: 0 <= j < |novas| ==> (novas + [nova])[j] == novas[j];
  }

  lemma DroppedAroundIntro(m: Gems.GerenciadorGemas, before: seq<Gems.Gema>, total0: int, novas: seq<Gems.Gema>,
                           p: (int, int), q: int, circulo: (int, int) -> (real, real), alvo: int -> (real, real))
    requires m.gemas == before + novas && |novas| == Max(q, 0) && m.totalGemasSpawned == total0 + Max(q, 0)
    requires SpotsAround(novas, alvo)
    requires forall j ::
      alvo(j) == Gems.DropSpot(m.largura, m.altura, m.obstaculos, p.0 as real + circulo(j, q).0, p.1 as real + circulo(j, q).1)
    ensures DroppedAround(m, before, total0, p, q, circulo)
  {
    assert m.gemas[..|before|] == before;
    assert forall j :: 0 <= j < |novas| ==> m.gemas[|before| + j] == novas[j];
  }

  /** The loop of _dropar_gemas_morte: dropar_gema once for each of the q points around p. */
  method DroparEmCirculo(m: Gems.GerenciadorGemas, p: (int, int), q: int, circulo: (int, int) -> (real, real))
    requires m.Valid()
    modifies m`gemas, m`totalGemasSpawned
    ensures m.Valid() && DroppedAround(m, old(m.gemas), old(m.totalGemasSpawned), p, q, circulo)
  {
    ghost var alvo := (j: int) =>
      Gems.DropSpot(m.largura, m.altura, m.obstaculos, p.0 as real + circulo(j, q).0, p.1 as real + circulo(j, q).1);
    ghost var novas: seq<Gems.Gema> := [];
    var i := 0;
    while i < q
      invariant 0 <= i <= Max(q, 0) && |novas| == i
      invariant m.Valid() && m.gemas == old(m.gemas) + novas
      invariant m.totalGemasSpawned == old(m.totalGemasSpawned) + i
      invariant SpotsAround(novas, alvo)
    {
      var offset := circulo(i, q);
      ghost var nova := m.DroparGema(p.0 as real + offset.0, p.1 as real + offset.1);
      SpotsAroundSnoc(novas, nova, alvo);
      novas := novas + [nova];
      i := i + 1;
    }
    DroppedAroundIntro(m, old(m.gemas), old(m.totalGemasSpawned), novas, p, q, circulo, alvo);
  }

  lemma FirstBlockAt(q: Rect, blocks: seq<Block>, j: int)
    requires 0 <= j <= |blocks|
    requires forall i :: 0 <= i < j ==> !Overlaps(q, blocks[i].rect)
    requires j < |blocks| ==> Overlaps(q, blocks[j].rect)
    ensures FirstBlock(q, blocks) == j
  {
  }

  lemma FirstCandidateAt(cands: seq<Sprite>, q: Rect, n: int, k: int)
    requires 0 <= k <= |cands|
    requires forall j :: 0 <= j < k ==> !(cands[j].id < n && Overlaps(q, cands[j].rect))
    requires k < |cands| ==> cands[k].id < n && Overlaps(q, cands[k].rect)
    ensures FirstCandidate(cands, q, n) == k
  {
  }
}
