/** `MovingObject`: the base of every unit that walks the grid. One attempt to
    move stamps the time, probes the destination tile with the unit's own
    collider switched off, and then either starts moving there or, when the
    blocker carries the component the caller is interested in, hands it to
    `OnCantMove`.

    Engine services are inputs: `Physics2D.Linecast` is the function
    `linecast` from start and end tile to what it hits, `DateTime.Now` is the
    number `now` (milliseconds), `GetComponent<T>` is membership of the tag
    `t` in the hit object's components. Starting the `SmoothMovement`
    coroutine and calling `OnCantMove` are recorded in trace fields. */
module Moving {
  import opened CSharpInt

  /** A tile position or a direction on the grid. */
  datatype Vec = Vec(x: int, y: int) {
    function Plus(dx: int, dy: int): (r: Vec)
      ensures r.x - x == dx && r.y - y == dy
    {
      Vec(x + dx, y + dy)
    }
  }

  /** The component types a blocker may carry (the `T` of `AttemptMove<T>`). */
  datatype Component = PlayerComponent | EnemyComponent | WallComponent | OtherComponent(name: string)

  /** A game object on the blocking layer. */
  datatype Obstacle = Obstacle(id: nat, components: set<Component>)

  /** `GetComponent<T>() != null` on the hit object. */
  predicate HasComponent(o: Obstacle, t: Component) {
    t in o.components
  }

  /** What `Physics2D.Linecast` reports: `hit.transform == null` is `Clear`. */
  datatype Hit = Clear | Blocked(obstacle: Obstacle)

  /** One linecast, with the state of the unit's own collider while it ran. */
  datatype Probe = Probe(start: Vec, end: Vec, ownColliderEnabled: bool)

  /** `TimeSpan.FromSeconds(0.8)`, in milliseconds. */
  const DefaultMoveDelay: int := 800

  /** The `OnCantMove` calls one attempt makes, given what the probe hit. */
  function CantMoveCalls(hit: Hit, t: Component): (calls: seq<Obstacle>)
    ensures |calls| <= 1
    ensures |calls| == 1 <==> hit.Blocked? && HasComponent(hit.obstacle, t)
    ensures |calls| == 1 ==> calls[0] == hit.obstacle
  {
    if hit.Blocked? && HasComponent(hit.obstacle, t) then [hit.obstacle] else []
  }

  /** The movements one attempt starts, given what the probe hit. */
  function MovementStarts(hit: Hit, end: Vec): (starts: seq<Vec>)
    ensures |starts| <= 1
    ensures |starts| == 1 <==> hit.Clear?
    ensures |starts| == 1 ==> starts[0] == end
  {
    if hit.Clear? then [end] else []
  }

  /** An attempt either starts a movement or interacts with its blocker,
      never both; a blocker without the wanted component gets neither. */
  lemma AttemptEffectsExclusive(hit: Hit, t: Component, end: Vec)
    ensures |MovementStarts(hit, end)| + |CantMoveCalls(hit, t)| <= 1
    ensures hit.Blocked? && !HasComponent(hit.obstacle, t) ==>
      MovementStarts(hit, end) == [] && CantMoveCalls(hit, t) == []
  {
  }

  class MovingObject {
    /** `transform.position`, on the tile grid. */
    var position: Vec
    /** `boxCollider.enabled`. */
    var colliderEnabled: bool
    var lastMove: int
    var moveDelay: int
    var maxHits: int
    var hits: int
    var damage: int
    /** Every linecast this unit made, in order. */
    var probes: seq<Probe>
    /** Every `SmoothMovement` coroutine started, by destination, in order. */
    var movementsStarted: seq<Vec>
    /** Every `OnCantMove` call, by blocker, in order. */
    var cantMoveCalls: seq<Obstacle>

    /** The hit counters and the damage are C# ints. */
    ghost predicate Valid()
      reads this
    {
      IsInt32(maxHits) && IsInt32(hits) && IsInt32(damage)
    }

    /** A fresh component after `Start`: C# field defaults, the collider on,
        and the default delay between moves. */
    constructor (position: Vec)
      ensures Valid()
      ensures this.position == position && colliderEnabled
      ensures moveDelay == DefaultMoveDelay && lastMove == 0
      ensures maxHits == 0 && hits == 0 && damage == 0
      ensures probes == [] && movementsStarted == [] && cantMoveCalls == []
    {
      this.position := position;
      colliderEnabled := true;
      lastMove := 0;
      maxHits, hits, damage := 0, 0, 0;
      probes, movementsStarted, cantMoveCalls := [], [], [];
      moveDelay := DefaultMoveDelay;
    }

    /** Probes the tile one step `(xDir, yDir)` away with the own collider
        off, switches it back on, and starts moving there exactly when
        nothing was hit. */
    method Move(xDir: int, yDir: int, linecast: (Vec, Vec) -> Hit) returns (moved: bool, hit: Hit)
      requires Valid()
      modifies this
      ensures Valid()
      ensures hit == linecast(position, position.Plus(xDir, yDir))
      ensures moved <==> hit.Clear?
      ensures probes == old(probes) + [Probe(position, position.Plus(xDir, yDir), false)]
      ensures colliderEnabled
      ensures movementsStarted == old(movementsStarted) + MovementStarts(hit, position.Plus(xDir, yDir))
      ensures position == old(position) && lastMove == old(lastMove) && moveDelay == old(moveDelay)
      ensures maxHits == old(maxHits) && hits == old(hits) && damage == old(damage)
      ensures cantMoveCalls == old(cantMoveCalls)
    {
      var start := position;
      var end := start.Plus(xDir, yDir);
      colliderEnabled := false;
      hit := linecast(start, end);
      probes := probes + [Probe(start, end, colliderEnabled)];
      colliderEnabled := true;
      if hit.Clear? {
        movementsStarted := movementsStarted + [end];
        return true, hit;
      }
      return false, hit;
    }

    /** `AttemptMove<T>`: stamps the time on every call, then moves, or
        hands a blocker carrying `t` to `OnCantMove` once. */
    method AttemptMove(xDir: int, yDir: int, t: Component, now: int, linecast: (Vec, Vec) -> Hit)
      requires Valid()
      modifies this
      ensures Valid()
      ensures lastMove == now
      ensures colliderEnabled
      ensures probes == old(probes) + [Probe(position, position.Plus(xDir, yDir), false)]
      ensures movementsStarted ==
        old(movementsStarted) + MovementStarts(linecast(position, position.Plus(xDir, yDir)), position.Plus(xDir, yDir))
      ensures cantMoveCalls ==
        old(cantMoveCalls) + CantMoveCalls(linecast(position, position.Plus(xDir, yDir)), t)
      ensures position == old(position) && moveDelay == old(moveDelay)
      ensures maxHits == old(maxHits) && hits == old(hits) && damage == old(damage)
    {
      lastMove := now;
      var canMove, hit := Move(xDir, yDir, linecast);
      if hit.Clear? {
        return;
      }
      if !canMove && HasComponent(hit.obstacle, t) {
        cantMoveCalls := cantMoveCalls + [hit.obstacle];
      }
    }

    /** Lowers the hit counter by `dmg`, unclamped, with C# int wrap-around. */
    method LoseHits(dmg: int)
      requires Valid() && IsInt32(dmg)
      modifies this
      ensures Valid()
      ensures hits == Sub32(old(hits), dmg)
      ensures IsInt32(old(hits) - dmg) ==> hits == old(hits) - dmg
      ensures maxHits == old(maxHits) && damage == old(damage)
      ensures position == old(position) && colliderEnabled == old(colliderEnabled)
      ensures lastMove == old(lastMove) && moveDelay == old(moveDelay)
      ensures probes == old(probes) && movementsStarted == old(movementsStarted)
      ensures cantMoveCalls == old(cantMoveCalls)
    {
      hits := Sub32(hits, dmg);
    }
  }

  /** A player (interested in enemies) walking into an enemy, in any
      direction: the enemy is handed to `OnCantMove` once, the player starts
      no movement, and the time is stamped. */
  method BumpIntoEnemy(player: MovingObject, xDir: int, yDir: int, enemy: Obstacle, now: int)
    requires player.Valid() && HasComponent(enemy, EnemyComponent)
    modifies player
    ensures player.cantMoveCalls == old(player.cantMoveCalls) + [enemy]
    ensures player.movementsStarted == old(player.movementsStarted)
    ensures player.lastMove == now && player.colliderEnabled
  {
    var linecast := (s: Vec, e: Vec) => Blocked(enemy);
    player.AttemptMove(xDir, yDir, EnemyComponent, now, linecast);
  }
}
