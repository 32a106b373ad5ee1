# Clone-Brawl-Stars: a verified model of the game's bookkeeping

Clone-Brawl-Stars is a single-player top-down shooter written in Python with
pygame. The player picks one of six Brawlers (Shelly, Nita, Colt, Bull, Barley,
Poco) and fights waves of enemy Brawlers. Shots hit enemies or obstacles, gems
drop and are collected, bushes hide whoever stands in them, and a Super charges
from damage. After a match, a progression system hands out experience, levels
and trophies. Most of the code draws. This project models the bookkeeping
underneath the drawing, in Dafny, and proves what that bookkeeping promises.

Decisions that apply to every module:

- Rectangles are pygame rects with integer `x`, `y`, `w`, `h`.
- Two rects overlap under pygame 2's `colliderect`. A rect of zero size never collides.
- Timers, speeds and the Super charge are reals. Python's `int()` on a float is truncation toward zero (`Geometry.Trunc`).
- Distances are compared as squared distances.
- Anything random, and anything read from the clock or the keyboard, is a parameter of the operation that uses it.

One Dafny module per source file:

| module | file | what it holds |
|---|---|---|
| `Geometry` | (shared) | rects, `colliderect`, truncation, squared distances |
| `Seqs` | (shared) | `list.remove`, filtering and duplicate-free lists |
| `QuadTrees` | src/quadtree.py | the spatial index, as a recursive datatype value |
| `Bullets` | src/bullet.py | a bullet: delay, lifetime, trail, reset, off-screen tests |
| `CollisionSystem` | src/collision_system.py | the projectile pool (a class over three lists) and the collision optimizer |
| `Games` | src/game.py | the shot pass, levels and quota, the death gem drop, the respawn point |
| `Progression` | src/sistema_progressao.py | experience, levels, trophies, Star Powers, match statistics, ranking |
| `Super` | src/super_system.py | Super charge, availability and duration |
| `Achievements` | src/achievement_system.py | achievements unlocked once, in registration order |
| `Gems` | src/gem_system.py | gem collection, removal, spawning and the drop position |
| `Bushes` | src/bushes.py | bush membership sets, visibility, cover, bush placement |
| `Players` | src/player.py | health, power-ups, shot modifiers, movement with obstacles and screen clamp |
| `Enemies` | src/enemy.py | enemy choice, health, movement, shooting gate |
| `Characters` | src/characters/personagens.py | the six Brawlers, their abilities and cooldowns |
| `Animations` | src/animacao_personagem.py | animation state selection, timers, the sprite cache |
| `Selector` | src/characters/seletor_personagem.py | the character carousel |
| `ScreenStates` | src/gerenciador_estados.py | the screen-state manager and its fade |

## Model

| member | source | states |
|---|---|---|
| Geometry.OverlapsPositive | src/quadtree.py:135-160 | for positive sizes, `colliderect` is the strict interval test on both axes |
| Geometry.Trunc | src/bullet.py:126-157 | Python's `int()` on a float: the integer nearest zero within 1 of the value |
| Seqs.RemoveFirst | src/gem_system.py:164-169 | `list.remove` drops the first occurrence of the element and keeps the rest in order |
| Seqs.Excluding | src/collision_system.py:96-104 | exactly the elements of s outside the set |
| Seqs.RemoveFirstDistinct | src/collision_system.py:83-87 | in a list without duplicates, removing the first occurrence removes the element entirely |
| QuadTrees.GetIndex | src/quadtree.py:63-98 | -1 or 0..3; 0/3 only right of the vertical midline and inside the right edge, 1/2 only left of it, 0/1 only above the horizontal midline, 2/3 only below it |
| QuadTrees.Clear | src/quadtree.py:36-42 | no objects and no children, same bounds and configuration, and a valid tree |
| QuadTrees.Leaf | src/quadtree.py:19-34 | a fresh node with the given bounds and configuration, no objects, no children, and valid |
| QuadTrees.AllObjects | src/quadtree.py:162-168 | the node's own objects, and on a leaf exactly those; with Insert's multiset contract it holds everything inserted |
| QuadTrees.AllObjectsChildren | src/quadtree.py:162-168 | the node's own objects come first, and every child's objects are among the node's, with multiplicity |
| QuadTrees.SplitNodes | src/quadtree.py:44-61 | four empty children at level+1 with the parent's limits, each `w div 2 x h div 2`, at (x+sw,y), (x,y), (x,y+sh), (x+sw,y+sh) |
| QuadTrees.Split | src/quadtree.py:44-61 | a leaf gets exactly those four children and keeps its own objects |
| QuadTrees.QuadrantsDisjoint | src/quadtree.py:44-61 | the four children's bounds never collide with one another |
| QuadTrees.QuadrantsTileEven | src/quadtree.py:44-61 | for even sizes the four children tile the parent exactly |
| QuadTrees.QuadrantsGapOdd | src/quadtree.py:44-61 | for an odd width the parent's rightmost column belongs to no child |
| QuadTrees.DifferentQuadrantsApart | src/quadtree.py:63-98 | two rects that fit different quadrants of the same bounds cannot collide |
| QuadTrees.Insert | src/quadtree.py:100-133 | the tree stays valid (children empty or exactly the four of split) and holds one more occurrence of the sprite, as a multiset, nothing dropped or duplicated; a node splits only when, after the append, it is a leaf holding more than max_objects below max_levels |
| QuadTrees.InsertInChild | src/quadtree.py:107-113 | a sprite that fits a quadrant of a split node goes into the children (the multiset of sprites grows by it), the node stays split and valid and its own objects are unchanged |
| QuadTrees.Redistribute | src/quadtree.py:117-133 | the split and the pop loop: the sprites left in the node's list all have index -1, the rest went to the children; the multiset of sprites is unchanged |
| QuadTrees.MoveDown | src/quadtree.py:126-133 | one pop of the loop moves exactly one sprite from the list into its child |
| QuadTrees.Retrieve | src/quadtree.py:135-160 | the candidates are a sub-multiset of the stored sprites and contain the node's own objects |
| QuadTrees.RetrieveLeaf | src/quadtree.py:149-158 | on a leaf the candidates are exactly the leaf's objects |
| QuadTrees.RetrieveStraddling | src/quadtree.py:149-158 | a query with index -1 on a split node returns a list that starts with the node's objects and contains every child's candidates |
| QuadTrees.NoFalseNegatives | src/quadtree.py:135-160 | every stored sprite whose positive-size rect collides with a positive-size query is among the candidates |
| Bullets.CenteredAt | src/bullet.py:126-157 | the rect of the given size whose centre is the given point |
| Bullets.FarOffScreenIsOffScreen | src/bullet.py:159-176 | far off screen implies off screen, through the 200-pixel margin |
| Bullets.FirstObstacle | src/bullet.py:121-124 | the index of the first obstacle the rect collides with, or the count when none collides |
| Bullets.FirstObstacleAt | src/bullet.py:121-124 | that index collides and no earlier obstacle does |
| Bullets.Bullet.constructor | src/bullet.py:25-53 | a bullet centred on its start, active exactly when its delay is at most 0, with zero lifetime, an empty trail and velocity `d x VELOCIDADE_TIRO` |
| Bullets.Bullet.Kill | src/bullet.py:117-118 | the sprite leaves its groups; `ativo` is untouched |
| Bullets.Bullet.Desativar | src/bullet.py:178-180 | `ativo` becomes false and nothing else changes |
| Bullets.Bullet.Configure | src/collision_system.py:65-73 | the bullet handed out carries the requested damage, speed, owner and shot type and is active |
| Bullets.Bullet.Reposicionar | src/bullet.py:126-157 | the new centre and position; velocity `d x VELOCIDADE_TIRO x velocidade_mult` |
| Bullets.Bullet.Reiniciar | src/bullet.py:126-157 | active, delay 0, lifetime 0, empty trail |
| Bullets.Bullet.Reset | src/bullet.py:126-157 | reset's whole new state: position, velocity, damage, owner, type, active, no delay, zero lifetime, empty trail; the groups are untouched |
| Bullets.Bullet.Update | src/bullet.py:71-124 | a pending delay only counts down and activates the bullet at 0 without moving it; an inactive bullet is left alone; a lifetime that reaches 3.0 kills it; otherwise it moves; the trail never exceeds 8 entries |
| Bullets.Bullet.Move | src/bullet.py:89-124 | the step, then the far-off-screen kill and the obstacle kill |
| Bullets.Bullet.Step | src/bullet.py:89-99 | the position advances by velocity times dt, the rect is re-centred, the new centre joins the trail and the oldest entry leaves past 8 |
| Bullets.Bullet.Collide | src/bullet.py:117-124 | the bullet is killed exactly when it is far off screen or collides with an obstacle |
| CollisionSystem.Kept | src/collision_system.py:96-104 | the active bullets update keeps: still `ativo` and on screen, in order |
| CollisionSystem.Reclaimed | src/collision_system.py:96-104 | the active bullets update hands back: not `ativo`, or off screen, in order |
| CollisionSystem.KeptIsExcluding | src/collision_system.py:96-104 | removing the reclaimed bullets from a duplicate-free list leaves exactly the kept ones, in order |
| CollisionSystem.PartitionAddFresh | src/collision_system.py:56-60 | a new bullet joins the pool and the active list, keeping the two lists a partition of the pool |
| CollisionSystem.PartitionTake | src/collision_system.py:61-63 | moving the last inactive bullet to the end of the active list keeps the partition |
| CollisionSystem.PartitionRelease | src/collision_system.py:83-87 | moving an active bullet to the end of the inactive list keeps the partition |
| CollisionSystem.ProjectilePool.constructor | src/collision_system.py:19-39 | `pool` and `inactive_bullets` hold the same `size` fresh inactive bullets; no bullet is active |
| CollisionSystem.ProjectilePool.GetBullet | src/collision_system.py:41-75 | never fails; it reuses the most recently returned bullet, or grows the pool by exactly one when none is inactive; the result is active, carries the requested attributes and is last in the active list; only the reused bullet may change, every other inactive bullet keeps its fields |
| CollisionSystem.ProjectilePool.ReturnBullet | src/collision_system.py:77-87 | an active bullet leaves the active list, is deactivated, killed and appended to the inactive list; any other bullet changes nothing |
| CollisionSystem.ProjectilePool.CollectReclaimed | src/collision_system.py:96-100 | the scan collects exactly the Reclaimed bullets of the active list |
| CollisionSystem.ProjectilePool.ReturnEach | src/collision_system.py:101-104 | return_bullet on each bullet of a list, in order: the lists end as the partition with those bullets moved |
| CollisionSystem.ProjectilePool.Update | src/collision_system.py:89-104 | exactly the Reclaimed bullets go back to the pool, and the Kept ones stay active in order |
| CollisionSystem.ProjectilePool.GetActiveBullets | src/collision_system.py:106-112 | a copy of the active list |
| CollisionSystem.ProjectilePool.ClearAll | src/collision_system.py:114-117 | the active list ends empty and the pool is unchanged |
| CollisionSystem.ProjectilePool.GetStats | src/collision_system.py:119-130 | the three list lengths exactly, a usage figure equal to 100 × active / total and within 0–100; no value where the division by `len(pool)` fails |
| CollisionSystem.PoolSizes | src/collision_system.py:41-117 | the pool's size is the sum of the active and inactive sizes |
| CollisionSystem.ReturnTwice | src/collision_system.py:83-87 | returning a bullet twice leaves the pool as returning it once |
| CollisionSystem.ReuseIsLifo | src/collision_system.py:62-87 | the next bullet handed out is the one most recently returned |
| CollisionSystem.Insertable | src/collision_system.py:155-170 | the sprites add_objects inserts, in order |
| CollisionSystem.InsertableMembers | src/collision_system.py:155-170 | a sprite is inserted iff it has a rect and its `ativo`, when present, is true |
| CollisionSystem.AddObject | src/collision_system.py:162-170 | one iteration inserts the object exactly when it is insertable |
| CollisionSystem.InsertEach | src/collision_system.py:162-170 | the tree gains exactly the insertable objects, as a multiset |
| CollisionSystem.PairsWith | src/collision_system.py:195-203 | the pairs of one sprite with its eligible candidates, in candidate order |
| CollisionSystem.PairsFor | src/collision_system.py:195-203 | the inner loop builds exactly PairsWith |
| CollisionSystem.BroadPairs | src/collision_system.py:182-205 | every pair has an `ativo` group1 sprite and one of its eligible candidates |
| CollisionSystem.Colliding | src/collision_system.py:207-221 | exactly the candidate pairs whose rects collide, no more pairs than the candidates |
| CollisionSystem.RetrieveComplete | src/collision_system.py:172-180 | a stored sprite of positive size colliding with a positive-size query is a candidate |
| CollisionSystem.RetrieveStored | src/collision_system.py:172-180 | every candidate is a stored sprite |
| CollisionSystem.OverlapsSymmetric | src/collision_system.py:207-221 | collision does not depend on the order of the two rects |
| CollisionSystem.PhasesFindExactlyCollisions | src/collision_system.py:182-221 | a pair survives both phases iff its first sprite is an `ativo` member of group1, its second an eligible stored sprite, and their positive-size rects collide |
| CollisionSystem.CollisionOptimizer.constructor | src/collision_system.py:140-148 | an empty root leaf over the bounds, with no pairs |
| CollisionSystem.CollisionOptimizer.Clear | src/collision_system.py:150-153 | the tree loses every sprite and child and the pair list empties |
| CollisionSystem.CollisionOptimizer.AddObjects | src/collision_system.py:155-170 | the tree gains exactly the insertable objects |
| CollisionSystem.CollisionOptimizer.GetCollisionCandidates | src/collision_system.py:172-180 | the candidates are stored sprites, and every stored sprite colliding with the query is among them |
| CollisionSystem.CollisionOptimizer.BroadPhase | src/collision_system.py:182-205 | the pairs of BroadPairs over the current tree |
| CollisionSystem.CollisionOptimizer.NarrowPhase | src/collision_system.py:207-221 | the candidate pairs whose rects collide, as Colliding states |
| Games.LiveObjects | src/game.py:671-674 | the enemies with `vida > 0`, in order, each under its own index |
| Games.LiveObjectsMembers | src/game.py:671-674 | exactly the living enemies enter the tree, each with its own rect |
| Games.PlayerShots | src/game.py:675-677 | the shots that pass the filter, in order |
| Games.PlayerShotsMembers | src/game.py:817-823 | the filter rejects exactly the shots with `ativo` false or `de_inimigo` true |
| Games.FirstCandidate | src/game.py:684-688 | the first candidate that is still an enemy and overlaps the shot, or none |
| Games.FirstBlock | src/game.py:693-728 | the first obstacle that overlaps the shot, or none |
| Games.HitFoe | src/game.py:825-869 | the damage is counted, the enemy's vida drops to `max(vida - dano, 0)`, and at 0 the death adds 100 points and an elimination |
| Games.RemoveAt | src/game.py:720-723 | the obstacle list without the removed obstacle, the others in order |
| Games.HitBlocks | src/game.py:693-728 | the first overlapping obstacle stops the shot; only a destructible one takes damage, and it is removed and scores when destroyed |
| Games.Step | src/game.py:677-691 | one shot against its candidates: the enemy list keeps its length and one stop flag is recorded (which enemy is hit is stated by the hit lemmas) |
| Games.Pass | src/game.py:668-691 | the shots in order, each against the same tree: each shot records one stop flag and the enemy list keeps its length |
| Games.PassAdvance | src/game.py:677-691 | the pass over one more shot is one more Step |
| Games.HitIsSoundAndComplete | src/game.py:677-691 | a shot hits an enemy only if it is stored and overlaps; it misses every enemy only if no stored enemy of positive size overlaps it |
| Games.StepHitsAtMostOne | src/game.py:678-688 | a shot damages at most one enemy, and only when it is stopped |
| Games.DeadEnemyScoresTwice | src/game.py:825-869 | a second shot on an enemy already at vida 0 in the same pass scores its death again, +100 points twice |
| Games.Quota | src/game.py:440-457 | after a reset and the climb from level 1 to n, the quota is `2 + n div 2` |
| Games.FirstSafeCorner | src/game.py:1464-1481 | the first corner, in the fixed order, that is safe |
| Games.Game.constructor | src/game.py:167-198 | level 1 with its threshold, multipliers and quota, score and counters at zero, the given enemies and obstacles, and a fresh valid optimizer |
| Games.Game.ResetarDificuldade | src/game.py:249-253 | back to level 1 with its threshold, multipliers and the base quota; score, enemies and obstacles unchanged |
| Games.Game.VerificarAumentoNivel | src/game.py:435-457 | one level up exactly when the score reaches the threshold below level 20, else nothing; the threshold is level x 100 afterwards |
| Games.Game.SubirNivel | src/game.py:440-457 | one more level, the new threshold, the multipliers raised, one more enemy on even levels |
| Games.Game.ProcessarDanoInimigo | src/game.py:825-869 | the hit of HitFoe on the enemy, and the shot is killed |
| Games.Game.ProcessarColisoesTirosObstaculos | src/game.py:693-728 | the obstacles' part of one shot, as HitBlocks says |
| Games.Game.ProcessarColisoesTiros | src/game.py:668-691 | the tree is filled once with the living enemies, then the world ends as Pass says; a shot is killed exactly when the pass stopped it |
| Games.Game.PreencherOtimizador | src/game.py:671-674 | the tree holds exactly the living enemies |
| Games.Game.ResolverTiros | src/game.py:677-691 | the shot loop computes Pass over the fixed tree |
| Games.Game.AvancarTiro | src/game.py:677-691 | one turn of the loop advances the pass by one Step |
| Games.Game.ProcessarTiro | src/game.py:677-691 | the candidate scan, then the obstacles when no enemy was hit |
| Games.Game.PosicaoRespawnSegura | src/game.py:1483-1498 | safe exactly when the 20x20 box clears every obstacle and every enemy centre is at least 150 away |
| Games.Game.EncontrarPosicaoRespawnSegura | src/game.py:1464-1481 | the first safe corner in the order TL, TR, BL, BR, else the screen centre, returned only when no corner is safe |
| Games.Game.DroparGemasMorte | src/game.py:1403-1420 | `min(gemas, 5)` gems are dropped around the death point and the count drops to `max(gemas - 5, 0)`; without a manager or a point nothing happens |
| Games.DroparEmCirculo | src/game.py:1409-1416 | one dropar_gema for each of the points around the death position, in order |
| Progression.Isqrt | src/sistema_progressao.py:85-91 | the largest r with `r * r <= n` |
| Progression.IsqrtUnique | src/sistema_progressao.py:85-91 | only one r lies between those bounds |
| Progression.IsqrtMonotone | src/sistema_progressao.py:85-91 | the integer square root never decreases |
| Progression.NivelDe | src/sistema_progressao.py:85-91 | the level always lies in 1..10 (its closed form is stated by NivelRaiz) |
| Progression.NivelRaiz | src/sistema_progressao.py:85-91 | from 100 on, the level is one more than the k with `k^2 <= exp/100 < (k+1)^2`, capped at 10 |
| Progression.NivelMonotone | src/sistema_progressao.py:85-91 | more experience never means a lower level |
| Progression.ExpProximoNivel | src/sistema_progressao.py:93-99 | never negative, and 0 at level 10 or more |
| Progression.ExpProximoNivelAlcanca | src/sistema_progressao.py:93-99 | below the top level, adding the missing experience reaches the next level, and one point less does not |
| Progression.ExpProximoNivelAlto | src/sistema_progressao.py:93-99 | from 100 on, the missing experience is what reaches `nivel^2` hundred points |
| Progression.NiveisDoQuadrado | src/sistema_progressao.py:85-91 | `(k+1)^2` hundred points is level k+2 and one point less is level k+1 |
| Progression.NivelNaFronteira | src/sistema_progressao.py:85-99 | at the experience the next level needs, one point less is the level just below |
| Progression.TrofeusPartida | src/sistema_progressao.py:180-185 | at least 8 trophies on a win and at least 5 on a loss |
| Progression.TrofeusFaixa | src/sistema_progressao.py:180-185 | over levels 1..10 a win is worth 8 to 14 and a loss costs 5 to 10 |
| Progression.TrofeusDecrescem | src/sistema_progressao.py:180-185 | higher levels win and lose fewer trophies |
| Progression.QuocienteTruncado | src/sistema_progressao.py:169-178 | `int(a / d)`: the quotient truncated toward zero |
| Progression.ExperienciaPartidaSpec | src/sistema_progressao.py:169-178 | a win is worth exactly 25 more than a loss; with nothing negative a match is worth at least its base and more with each kill |
| Progression.TabelaStarPowersSpec | src/sistema_progressao.py:43-73 | each Brawler has two Star Powers, at levels 7 and 9; an unknown name has none |
| Progression.AcumularSpec | src/sistema_progressao.py:123-134 | only keys already kept accumulate their values; other keys are ignored |
| Progression.AcumularKwargs | src/sistema_progressao.py:130-134 | the loop over the keyword arguments, in any order, computes Acumular |
| Progression.StarPower.constructor | src/sistema_progressao.py:13-19 | the given name, effect and level, not active |
| Progression.BrawlerProgressao.constructor | src/sistema_progressao.py:23-41 | level 1, everything at zero, the Star Powers of the name |
| Progression.AposPartida | src/sistema_progressao.py:187-211 | one more match, won or lost (a win raises the trophies, a loss never takes them below zero and never raises a non-negative count), the level matching the new experience, and a record's invariant kept |
| Progression.BrawlerProgressao.GanharExperiencia | src/sistema_progressao.py:75-83 | the level becomes the level of the new total; true iff it strictly rose |
| Progression.BrawlerProgressao.ExperienciaNecessariaProximoNivel | src/sistema_progressao.py:93-99 | never negative, and 0 at the top level |
| Progression.BrawlerProgressao.GanharTrofeus | src/sistema_progressao.py:101-105 | trophies rise, the record follows; `trofeus >= 0` and the record at least the trophies |
| Progression.BrawlerProgressao.PerderTrofeus | src/sistema_progressao.py:107-109 | trophies fall but never below zero; the record stays |
| Progression.BrawlerProgressao.AtivarStarPower | src/sistema_progressao.py:111-121 | succeeds iff the level is high enough; on failure the active Star Power is unchanged |
| Progression.BrawlerProgressao.RegistrarPartida | src/sistema_progressao.py:123-134 | one more match, won or lost, `partidas == vitorias + derrotas`, and the kept statistics accumulate |
| Progression.BrawlerProgressao.AplicarPartida | src/sistema_progressao.py:199-211 | the record's counters become AposPartida of the old ones, and the result reports the match's experience, the trophy change computed at the level before the match, whether the level rose, and the new level and trophies |
| Progression.BrawlerProgressao.WinRate | src/sistema_progressao.py:136-140 | the percentage of matches won, 0 before the first match, within 0..100 |
| Progression.BrawlerProgressao.StatsResumo | src/sistema_progressao.py:142-154 | the summary's level, experience, trophies, best trophies, match counts and win rate are the record's, and the active Star Power is reported by its name exactly when one is active |
| Progression.Disponiveis | src/sistema_progressao.py:224-227 | the Star Powers the level unlocks, in order |
| Progression.DisponiveisCrescem | src/sistema_progressao.py:224-227 | levelling up never takes a Star Power away |
| Progression.Ranking | src/sistema_progressao.py:229-232 | sorted from most trophies to fewest, a permutation of the input |
| Progression.RankingEstavel | src/sistema_progressao.py:229-232 | ties keep their original order |
| Progression.SistemaProgressao.constructor | src/sistema_progressao.py:158-161 | no Brawler records |
| Progression.SistemaProgressao.GetBrawler | src/sistema_progressao.py:163-167 | the record kept for the name, created on first use with the counters of a new record and kept afterwards |
| Progression.SistemaProgressao.ProcessarFimPartida | src/sistema_progressao.py:187-222 | the name's record, created on first use, has its counters replaced by AposPartida of its old ones (or of a new record's); the experience of ExperienciaPartida, a level matching the new experience, a trophy change computed at the old level that is positive on a win and negative on a loss; every other record is untouched |
| Progression.SistemaProgressao.AplicarAoRegistro | src/sistema_progressao.py:197-211 | the name's record takes the match as AplicarPartida says; every other record is untouched and all stay valid |
| Progression.SistemaProgressao.GetStarPowersDisponiveis | src/sistema_progressao.py:224-227 | the Star Powers of the record that its level unlocks; the record map is unchanged for a known name, and a new name gets a fresh record with the initial counters |
| Progression.SistemaProgressao.GetRankingBrawlers | src/sistema_progressao.py:229-232 | the (name, trophies) pairs in dict order, sorted stably by trophies |
| Super.TaxasDeSpec | src/super_system.py:44-90 | every rate is positive, damage dealt charges faster than damage received, and an unknown name gets Shelly's table |
| Super.CargaGanha | src/super_system.py:92-106 | never negative for a non-negative damage and rate |
| Super.SuperSystem.constructor | src/super_system.py:28-42 | empty charge, nothing available or active, the rates of the name |
| Super.SuperSystem.AdicionarCarga | src/super_system.py:108-118 | the charge rises, capped at the maximum and kept within 0..max; reaching it makes the Super available |
| Super.SuperSystem.AdicionarCargaDano | src/super_system.py:92-98 | nothing while available, else damage dealt charges |
| Super.SuperSystem.AdicionarCargaHit | src/super_system.py:100-106 | nothing while available, else damage received charges |
| Super.SuperSystem.UsarSuper | src/super_system.py:154-165 | false and nothing changed when unavailable; else true, active for its duration, the charge back to 0 |
| Super.SuperSystem.Update | src/super_system.py:185-208 | a positive Super time counts down and the Super ends at 0, else nothing changes; a positive glow fades by twice dt down to 0 and never rises for dt >= 0 |
| Super.SuperSystem.ObterProgresso | src/super_system.py:210-212 | the charge over the maximum, within 0..1, and 1 exactly when the Super is available |
| Super.SuperInstantaneoFicaAtivo | src/super_system.py:185-191 | a Super of duration 0 never stops being active |
| Achievements.Conquista.constructor | src/achievement_system.py:10-21 | not reached yet |
| Achievements.Conquista.Verificar | src/achievement_system.py:23-32 | true iff not yet reached and the criterion holds, and then it is reached; once reached the criterion is not consulted and the answer is false |
| Achievements.Desbloqueadas | src/achievement_system.py:44-50 | the achievements one round unlocks, no more than the candidates, each one not reached before and met |
| Achievements.DesbloqueadasCompleta | src/achievement_system.py:44-50 | every unreached achievement whose criterion holds is unlocked |
| Achievements.SistemaConquistas.constructor | src/achievement_system.py:37-38 | no achievements |
| Achievements.SistemaConquistas.AdicionarConquista | src/achievement_system.py:40-42 | appended after the ones already registered |
| Achievements.SistemaConquistas.VerificarConquistas | src/achievement_system.py:44-50 | exactly the newly unlocked ones, in registration order; afterwards each met one is reached |
| Achievements.VerificarEmSequencia | src/achievement_system.py:23-32 | over any sequence of contexts an achievement is reported at most once, and exactly once when some context meets it |
| Gems.Gema.constructor | src/gem_system.py:25-42 | a gem at the point, not collected |
| Gems.Gema.Coletar | src/gem_system.py:82-88 | the gem is collected |
| Gems.Uncollected | src/gem_system.py:164-169 | the gems update keeps, in order: the ones not collected |
| Gems.UncollectedKeeps | src/gem_system.py:164-169 | every uncollected gem is kept |
| Gems.UncollectedSubset | src/gem_system.py:164-169 | every kept gem was on the list |
| Gems.CountCollectable | src/gem_system.py:67-80 | the gems not collected and within the collection radius |
| Gems.CountCollectableZero | src/gem_system.py:212-228 | the count is zero exactly when no gem can be collected |
| Gems.FirstSpawn | src/gem_system.py:178-210 | the first drawn position that passes both checks, or none |
| Gems.ColumnSearchFirst | src/gem_system.py:273-290 | the search finds a position iff some row of the column is free, and then the topmost one |
| Gems.DropSpotInBounds | src/gem_system.py:264-267 | a dropped gem lies within the margins of the map |
| Gems.DropSpotClear | src/gem_system.py:256-295 | the gem clears the obstacles exactly when the clamped point was clear or the column had a free row |
| Gems.DropSearchesOneColumn | src/gem_system.py:273-290 | only one column is searched: a gem next to a tall wall lands on the wall although a free spot lies 20 to the right |
| Gems.GerenciadorGemas.constructor | src/gem_system.py:140-156 | no gems, both counters at zero, spawn timer full |
| Gems.GerenciadorGemas.Update | src/gem_system.py:158-176 | the collected gems leave, the others stay in order, the count rises by the number removed; a spawn is tried only with the timer out and fewer than the maximum, and the timer then restarts |
| Gems.GerenciadorGemas.RemoverColetadas | src/gem_system.py:164-169 | the list becomes Uncollected and the count rises by the number removed |
| Gems.GerenciadorGemas.SpawnarGema | src/gem_system.py:178-210 | at most one new gem, at the first drawn position that clears the obstacles and is at least three gem sizes from every gem |
| Gems.GerenciadorGemas.PosicaoValida | src/gem_system.py:190-205 | the two checks of one drawn position |
| Gems.GerenciadorGemas.Livre | src/gem_system.py:190-196 | the box collides with no obstacle |
| Gems.GerenciadorGemas.ColetarGemas | src/gem_system.py:212-228 | every gem within reach not yet collected is collected and their number returned; none is left to collect |
| Gems.GerenciadorGemas.Reset | src/gem_system.py:247-254 | no gems, both counters at zero, the spawn timer restored |
| Gems.GerenciadorGemas.DroparGema | src/gem_system.py:256-295 | exactly one gem appended, at DropSpot, with no cap, and the spawned counter up by one |
| Gems.GerenciadorGemas.BuscarPerto | src/gem_system.py:273-290 | the search around a blocked point is ColumnSearch of its first column |
| Gems.ColetarDuasVezes | src/gem_system.py:212-228 | a second call at the same point collects nothing |
| Bushes.Interior | src/bushes.py:112-127 | the bush rect shrunk by 10 on each side |
| Bushes.Arbusto.constructor | src/bushes.py:19-44 | the rect centred on the point with floor division, nobody inside |
| Bushes.Arbusto.AdicionarEntidade | src/bushes.py:129-131 | set insertion |
| Bushes.Arbusto.RemoverEntidade | src/bushes.py:133-135 | set discard; removing an absent entity changes nothing |
| Bushes.DentroSpec | src/bushes.py:112-127 | inside exactly when the 30x30 box around the entity meets the shrunk rect on both axes |
| Bushes.Aceitas | src/bushes.py:265-286 | the accepted candidates, in order |
| Bushes.AceitasEspacadas | src/bushes.py:265-286 | each accepted bush is a candidate at least 80 from every obstacle centre and 90 from every earlier bush |
| Bushes.GerenciadorArbustos.constructor | src/bushes.py:173-177 | no bushes |
| Bushes.GerenciadorArbustos.GerarArbustosEstrategicos | src/bushes.py:211-286 | the group is rebuilt with a bush at each accepted candidate, in order |
| Bushes.GerenciadorArbustos.Atualizar | src/bushes.py:288-295 | the list of bushes stays the same, and afterwards an entity is in a bush's set iff it is inside that bush |
| Bushes.GerenciadorArbustos.AtualizarVisibilidade | src/bushes.py:297-307 | afterwards an entity is in a bush's set iff it is inside that bush |
| Bushes.GerenciadorArbustos.EntidadeEstaEscondida | src/bushes.py:309-314 | true iff some bush's set holds the entity; `entidade_esta_em_arbusto` answers the same |
| Bushes.GerenciadorArbustos.PodeVerEntidade | src/bushes.py:316-328 | a target outside every bush is seen; a hidden one iff closer than 60 |
| Bushes.GerenciadorArbustos.ObterCoberturaParaPosicao | src/bushes.py:330-335 | the density of the first bush holding the point, else 0.0 |
| Bushes.CoberturaPrimeira | src/bushes.py:330-335 | the cover is the density of the first bush holding the point, or 0.0 when none does |
| Characters.FichaDe | src/characters/personagens.py:408-421 | the Brawler of that name, Shelly for any other name; all statistics positive |
| Characters.HabilidadeIdentifica | src/characters/personagens.py:173-405 | the six abilities differ, so the ability identifies the Brawler |
| Characters.Personagem.constructor | src/characters/personagens.py:19-42 | full health, ability ready, no bear out |
| Characters.Personagem.SuperShell | src/characters/personagens.py:202-212 | a result only with the cooldown out, carrying twice the base damage; the cooldown restarts |
| Characters.Personagem.InvocarUrso | src/characters/personagens.py:243-252 | needs the cooldown out and no bear out, and summons one |
| Characters.Personagem.RajadaBalas | src/characters/personagens.py:281-290 | six shots 0.1 s apart, only with the cooldown out |
| Characters.Personagem.Investida | src/characters/personagens.py:318-328 | double speed for two seconds, only with the cooldown out |
| Characters.Personagem.ChuvaGarrafas | src/characters/personagens.py:357-367 | five bottles over an area, only with the cooldown out |
| Characters.Personagem.MelodiaCurativa | src/characters/personagens.py:395-405 | heals 60, only with the cooldown out |
| Characters.Personagem.UsarHabilidadeEspecial | src/characters/personagens.py:120-124 | nothing while the cooldown runs; otherwise the Brawler's own ability, and a result restarts the cooldown |
| Characters.Personagem.AtualizarCooldowns | src/characters/personagens.py:126-131 | each timer counts down only while positive |
| Characters.UsarDuasVezes | src/characters/personagens.py:120-131 | a second use right after one that fired never fires |
| Players.Consumir | src/player.py:269-274 | a pending counter drops by one and its key goes at 0 |
| Players.PendentesContador | src/player.py:269-324 | a counter of n is pending for exactly the next n shots |
| Players.Decorrer | src/player.py:170-190 | a timer runs down and its key goes at 0 |
| Players.EntradaPowerUp | src/player.py:463-484 | a timed entry for 'velocidade' and 'tiro_rapido', none for 'vida' |
| Players.Restantes | src/player.py:486-496 | only entries with time left remain, no more than before |
| Players.RestantesMantem | src/player.py:486-496 | every entry with time left is kept |
| Players.RestantesOrigem | src/player.py:486-496 | every kept entry came from the list and still had time left |
| Players.ResetComOutroAtivo | src/player.py:486-496 | the stat is reset as soon as one entry of its type runs out, even with another still running |
| Players.Limitar | src/player.py:198-203 | the clamped centre keeps the half-size on screen |
| Players.PassoX | src/player.py:205-217 | the horizontal step keeps the rect's size, its vertical position and the centre's y |
| Players.PassoY | src/player.py:219-231 | the vertical step keeps the rect's size, its horizontal position and the centre's x |
| Players.Limites | src/player.py:231-244 | a rect past an edge is put back against it |
| Players.PassoXLivre | src/player.py:205-217 | a horizontal step that meets no obstacle ends at the clamped target, its rect around the truncated centre |
| Players.PassoYLivre | src/player.py:219-231 | the same on the vertical axis |
| Players.PassoXBloqueado | src/player.py:205-217 | a horizontal step whose target first overlaps obstacle k ends against that obstacle's near side, clear of it, the centre on the rect |
| Players.PassoYBloqueado | src/player.py:219-231 | the same on the vertical axis |
| Players.MoverNaTela | src/player.py:192-244 | a rect that fits the screen ends up on it, whatever the step and the obstacles |
| Players.MoverLivre | src/player.py:192-244 | with nothing in the way, an even-size player goes exactly to the clamped target |
| Players.EmpurrarX | src/player.py:205-217 | the pushed rect only touches the obstacle it hit and no longer collides with it |
| Players.EmpurrarY | src/player.py:219-231 | the same on the vertical axis |
| Players.MoverEixoX | src/player.py:205-217 | the loop computes PassoX |
| Players.MoverEixoY | src/player.py:219-231 | the loop computes PassoY |
| Players.AjustarTela | src/player.py:231-244 | the final check computes Limites |
| Players.Curado | src/player.py:458-461 | health rises by the amount but never past the maximum |
| Players.AposEfeito | src/player.py:93-108 | each ability result arms its own effect and nothing else |
| Players.SuperShellUmTiro | src/player.py:269-274 | Shelly's ability makes exactly her next shot a doubled one |
| Players.RajadaSeisTiros | src/player.py:317-324 | Colt's ability makes exactly the next six shots burst shots |
| Players.TextoHabilidadePadrao | src/player.py:508-547 | exactly Barley and Poco get the generic text |
| Players.Player.constructor | src/player.py:25-62 | the named Brawler, Shelly for an unknown name, at full health, centred on the point |
| Players.Player.UsarHabilidadeEspecial | src/player.py:79-91 | fires only with both the player's and the Brawler's cooldowns out, and then applies the effect; the bear flag is set exactly when the bear ability fires, and kept otherwise |
| Players.Player.Curar | src/player.py:458-461 | health rises by the amount, capped at the maximum |
| Players.Player.ReceberDano | src/player.py:422-456 | health drops by the damage and the hit charges the Super; at 0 or below it is set to 0 and the answer is true, else false |
| Players.Player.AplicarPowerUp | src/player.py:463-484 | speed and rapid fire add one entry of DURACAO_POWER_UP and change their stat; 'vida' only heals |
| Players.Player.AtualizarPowerUps | src/player.py:486-496 | the entries become Restantes, and each one that ran out puts its stat back |
| Players.Player.Atirar | src/player.py:246-324 | nothing while dead or on cooldown; else a shot 30 ahead of the centre; a pending Super Shell doubles exactly that shot; while a burst is pending the cooldown is 0.1, else `cooldown_tiro` |
| Players.Player.MoverJogador | src/player.py:192-244 | the position ends as Mover says, and the rect lies inside the screen |
| Players.Player.AtualizarTemporizadores | src/player.py:113-124 | the cooldowns run down while positive and the damage flag drops when its timer runs out |
| Players.Player.AtualizarEfeitosEspeciais | src/player.py:170-190 | the effect timers run down and go at 0; a charge that ends puts the speed back |
| Players.Player.ObterInfoHabilidade | src/player.py:508-547 | ready iff the ability cooldown is out, and the time shown is `max(0, cooldown)` |
| Players.VencerPowerUps | src/player.py:486-496 | the loop over the copy computes Restantes and the stats it resets |
| Players.HabilidadeUmaVez | src/player.py:79-91 | after it fired once, no update of the timers lets the Q ability fire again |
| Players.HabilidadeRecarregada | src/characters/personagens.py:120-131 | with the Brawler's cooldowns also run down, an ability other than the bear fires again once its cooldown has passed |
| Enemies.Diferentes | src/enemy.py:30-36 | the Brawlers other than the player's, in order |
| Enemies.DiferentesCompleto | src/enemy.py:30-36 | every name other than the player's is a candidate |
| Enemies.EscolherNome | src/enemy.py:25-36 | the forced Brawler when valid, else a draw among the candidates |
| Enemies.NuncaRepete | src/enemy.py:25-36 | unless forced, an enemy is never the player's own Brawler |
| Enemies.VidaInimigo | src/enemy.py:47-48 | four fifths of the Brawler's health, rounded down |
| Enemies.DanoInimigo | src/enemy.py:50 | nine tenths of the Brawler's damage, rounded down |
| Enemies.Enemy.constructor | src/enemy.py:21-63 | `vida == vida_maxima == int(0.8 x vida_maxima)` of the chosen Brawler, a 30x30 rect centred on the point |
| Enemies.Enemy.Update | src/enemy.py:65-80 | at vida 0 it leaves the game without moving or touching its cooldown; otherwise its rect and centre become Movido of the old ones and the step, and the cooldown runs down |
| Enemies.Enemy.Mover | src/enemy.py:143-171 | the rect stays within the screen horizontally and the centre follows a clamp; the vertical step moves only the float centre; the new rect and centre are Movido of the old ones |
| Enemies.Movido | src/enemy.py:143-171 | the step keeps the rect's size, keeps a rect that fits the screen inside it horizontally, and on a rect vertically on screen moves only the float centre by dy |
| Enemies.Enemy.PodeVerJogador | src/enemy.py:211-220 | always without a bush manager or with the player outside every bush; else iff closer than 50 |
| Enemies.Enemy.TentarAtirar | src/enemy.py:173-209 | a shot only with the cooldown out, the player strictly between 0 and 400 away and visible; the cooldown restarts; the fresh enemy bullet starts at the centre, flies along the direction at the bullet speed (multiplier 1.0) and is well formed |
| Enemies.Enemy.ReceberDano | src/enemy.py:222-225 | `vida = max(vida - dano, 0)` |
| Enemies.DerivaVertical | src/enemy.py:158-171 | once on screen vertically, steps move the centre but never the rect |
| Animations.Definido | src/animacao_personagem.py:243-254 | the current state changes nothing; a new one restarts the clock and frame, DANO and VITORIA start their timers |
| Animations.EstadoAtualizado | src/animacao_personagem.py:262-274 | damage switches to DANO only once its timer is out, victory beats movement, otherwise DANO/ATAQUE/MOVIMENTO fall back to IDLE |
| Animations.TempoDanoAtualizado | src/animacao_personagem.py:256-281 | a running damage timer only runs down |
| Animations.RelogioDoEstado | src/animacao_personagem.py:243-281 | a change of state restarts the state clock; otherwise it advances by dt |
| Animations.Livre | src/animacao_personagem.py:588-591 | false exactly in DANO or VITORIA with that timer still positive |
| Animations.AcertoBloqueia | src/animacao_personagem.py:588-591 | a fresh hit blocks actions for the frame it lands in |
| Animations.AnimacaoPersonagem.constructor | src/animacao_personagem.py:25-63 | IDLE, clocks at zero, empty cache |
| Animations.AnimacaoPersonagem.DefinirEstado | src/animacao_personagem.py:243-254 | the state change of Definido |
| Animations.AnimacaoPersonagem.Update | src/animacao_personagem.py:256-281 | the clocks advance by dt, the state is EstadoAtualizado, only positive timers run down |
| Animations.AnimacaoPersonagem.ObterSpriteAtual | src/animacao_personagem.py:283-302 | a cached sprite is returned unchanged, else drawn and cached; the cache never holds more than 50 entries |
| Animations.AnimacaoPersonagem.IniciarAnimacaoAtaque | src/animacao_personagem.py:557-559 | ATAQUE |
| Animations.AnimacaoPersonagem.IniciarCelebracaoVitoria | src/animacao_personagem.py:561-564 | VITORIA and the game marked as won |
| Animations.AnimacaoPersonagem.ResetarAnimacoes | src/animacao_personagem.py:566-574 | IDLE, every timer 0, both flags false |
| Animations.SpriteEstavel | src/animacao_personagem.py:283-302 | asked twice at the same moment, the cache gives the same sprite |
| Selector.Vizinho | src/characters/seletor_personagem.py:467-475 | one step left or right with wrap-around, always in 0..5 |
| Selector.VizinhoVolta | src/characters/seletor_personagem.py:467-475 | a step left undoes a step right and the other way round |
| Selector.GiradoModulo | src/characters/seletor_personagem.py:467-475 | k steps right land on `(i + k) mod 6` |
| Selector.GiroCompleto | src/characters/seletor_personagem.py:467-475 | six steps right come back to the start |
| Selector.SeletorPersonagem.constructor | src/characters/seletor_personagem.py:21-43 | the first Brawler highlighted, no transition |
| Selector.SeletorPersonagem.HandleSelectionEvent | src/characters/seletor_personagem.py:464-490 | left/A and right/D move the highlight and answer nothing; Enter/Space answer the highlighted Brawler; Escape answers "voltar", C "audio"; anything else changes nothing |
| Selector.SeletorPersonagem.Update | src/characters/seletor_personagem.py:45-64 | a change of highlight restarts the 0.5 s transition and syncs the last index; a running one runs down |
| ScreenStates.Mudado | src/gerenciador_estados.py:51-85 | the current screen changes nothing; another one becomes current and starts the fade from 0 |
| ScreenStates.JogoNovo | src/gerenciador_estados.py:64-67 | entering the game installs a Game unlike every earlier one |
| ScreenStates.Atualizado | src/gerenciador_estados.py:87-97 | a running fade advances by dt and ends once it reaches its duration |
| ScreenStates.FadeTermina | src/gerenciador_estados.py:89-93 | with frame times that are not negative, the fade has ended once they add up to its duration |
| ScreenStates.Tratado | src/gerenciador_estados.py:99-154 | each answer leads to its screen; "detalhes" records the Brawler |
| ScreenStates.VoltarDosDetalhes | src/gerenciador_estados.py:140-152 | "voltar" from the details leads to progress, and again to the main menu |
| ScreenStates.JogarDeNovo | src/gerenciador_estados.py:106-124 | leaving the game leads to the main menu, and "jogar" again builds another Game |
| ScreenStates.Alpha | src/gerenciador_estados.py:180-196 | the alpha lies in 0..255 for progress in 0..1 |
| ScreenStates.AlphaSimetrico | src/gerenciador_estados.py:180-196 | the alpha peaks at progress 0.5 and is symmetric about it |
| ScreenStates.AlphaSobe | src/gerenciador_estados.py:180-196 | over the first half the alpha never falls |
| ScreenStates.Sobreposicao | src/gerenciador_estados.py:156-178 | the overlay is drawn only during a fade and with an alpha in 1..255, and during a running fade it is drawn exactly when the fade is at least 1/1020 s from both ends |
| ScreenStates.GerenciadorEstados.constructor | src/gerenciador_estados.py:30-38 | the main menu, no fade running |
| ScreenStates.GerenciadorEstados.IniciarTransicao | src/gerenciador_estados.py:82-85 | the fade runs from 0 |
| ScreenStates.GerenciadorEstados.MudarEstado | src/gerenciador_estados.py:51-80 | the screen change of Mudado |
| ScreenStates.GerenciadorEstados.Update | src/gerenciador_estados.py:87-97 | the fade of Atualizado |
| ScreenStates.GerenciadorEstados.HandleEvent | src/gerenciador_estados.py:99-154 | the routing of Tratado; true on every path but "sair" |

## Findings

| source | as written | input that shows it | evidently intended | confidence | as-written member | corrected member |
|---|---|---|---|---|---|---|
| src/player.py:79-91 | the player's Q ability asks the Brawler's `usar_habilidade_especial`, which fires only while the Brawler's `cooldown_habilidade` is out; only `atualizar_cooldowns` (src/characters/personagens.py:126-131) lowers that cooldown and no file calls it, so the ability fires once per Brawler | Shelly uses Super Shell once, then any number of frames pass; the second use returns None | the Brawler's cooldown runs down with the frames, so the ability is ready again after its cooldown | not executed; high that the call is missing | Players.HabilidadeUmaVez | Players.HabilidadeRecarregada |

## Left out

- Drawing: every `render`, `draw`, `desenhar*` and `draw_debug` method, the sprite and 3D renderers, particles, screen shake, floating numbers and sounds. These are pygame surface and audio calls.
- Floating-point rounding: timers, speeds and the charge are exact reals.
- Randomness, the clock and the keyboard: spawn positions, AI directions, bush extras and sizes, the enemy's random Brawler and `pygame.key.get_pressed` are parameters.
- Square roots: the aim direction of a shot is a parameter; distance tests compare squares.
- Obstacles: `receber_dano` in src/obstacle.py decrements an attribute that is never defined. Its answer is the parameter `destroyed`, indexed by call count.
- Persistence: `salvar_progressao`, `carregar_progressao` and `resetar_progressao` read and write JSON files.
- QuadTrees.Insert: the tree is a value, so the aliasing of node objects that Python mutates in place is not captured.
- Bullets.Bullet.Update: sprite groups are a flag; the image and its drawing are not modelled.
- Player shots: `atirar` returns the shot as a value. Creating it in the pool through `criar_projetil_otimizado` is not modelled.
- Players.Player.MoverJogador: the pressed keys are a parameter, the step (dx, dy).
- Enemies.Enemy.Mover: the third vertical branch repeats the second and can never run, so it is not modelled; the obstacles are ignored, as in the source.
- Player: `atirar_botao_virtual`, `usar_super`, `_executar_super_personagem`, `celebrar_vitoria`, `reportar_dano_causado`, `resetar_estado_animacao`, `get_cooldown_habilidade_percentual` and the input handling are not modelled. They combine drawing and input with operations modelled elsewhere.
- Enemies.Enemy.Update: the AI step of `atualizar_movimento` is a parameter, because it is random and reads the clock.
- Enemies: `draw_vida` and the damage effects of `receber_dano` are drawing.
- Games: the spawning in `adicionar_inimigos_nivel`, `registrar_dano_recebido`, the main loop and the HUD are not modelled. The level-up's enemy spawn is left out with them.
- Games.Game.DroparGemasMorte: the clamp of a negative count to zero is not modelled, because `g - min(g, 5)` is never negative.
- Progression.BrawlerProgressao.StatsResumo: the rounding of the win rate to one decimal is not modelled.
- Progression.QuocienteTruncado: `int(dano / 50)` is an integer quotient truncated toward zero, without float rounding.
- Bushes.GerenciadorArbustos.Atualizar: the sway animation of `atualizar` (`Arbusto.update`, with or without wind) is drawing only and is not modelled; its visibility step is AtualizarVisibilidade.
- Bushes: `gerar_arbustos_aleatorios` is random and the game never calls it. `limpar_arbustos` calls pygame's drawing method `Group.clear` without its arguments, and its only call, in `inicializar_jogo`, runs before the bush manager exists, so it is not modelled.
- Bushes.GerenciadorArbustos.GerarArbustosEstrategicos: the random extra positions, sizes and densities are parameters.
- Animations: parameter tables, the `_animar_*` pose functions, sprite generation, `obter_animacao_ativa` and `obter_info_animacao` are drawing or display text. The drawn sprite is a parameter.
- Selector.SeletorPersonagem.Update: the particles and the card wobble are not modelled.
- ScreenStates.GerenciadorEstados.Update: the current screen's own update and render are not modelled.
- ScreenStates.GerenciadorEstados.HandleEvent: the screens' answers are parameters, and "sair", which quits the program, answers false.
- Characters: `listar_personagens` appears only as the fixed list of six names.
