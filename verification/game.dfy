/**
 * The discrete rules of the lane-dodge driving game (app.js): the global
 * `state` record and the entity lists that the event handlers and the frame
 * update change.
 *
 * Positions are kept only where the rules compare them with fixed lines
 * (passing the player, leaving the screen), as whole pixels on the vertical
 * axis; how far things move in one frame is a parameter, and every overlap
 * test that needs the horizontal layout is a boolean supplied by the caller.
 */
module Rush {

  const LaneCount := 4
  const PassPoints := 20            // addScore: points for a passed car
  const ExchangeThreshold := 100    // coin buffer exchanged per 100 points
  const ExchangeCoins := 5          // coins credited per exchange
  const BossStartHP := 25
  const BossReward := 150
  const BossInterval := 10000       // first boss threshold, and the step after each win
  const StartHearts := 5
  const GameOverPenalty := 25       // coins lost on game over
  const MiniStartHP := 3
  const MiniKillPoints := 20
  const MiniPassPenalty := 20
  const MiniSpawnEvery := 15        // passed cars per mini-enemy
  const MaxMiniEnemies := 2
  const CrashPad := 8               // hit-box inset of the car collision test
  const CarSpawnY := -250
  const MiniSpawnY := -200
  const BossBulletSpawnY := 140     // boss.y + boss.h = 80 + 60
  const TrafficMargin := 50         // cars are dropped below height + 50
  const WreckDrop := 500            // a crashed car is moved to height + 500
  const BulletTopLimit := -20       // player bullets are dropped above -20

  datatype Mode = Menu | Play | Over

  datatype Item = Turbo | Shield | Double | Traffic

  /** The shop flags, stored as `{ turbo, shield, double, traffic }`. */
  datatype Inventory = Inventory(turbo: bool, shield: bool, double: bool, traffic: bool)
  {
    function Owns(item: Item): bool {
      match item
      case Turbo => turbo
      case Shield => shield
      case Double => double
      case Traffic => traffic
    }

    /** `inventory[item] = true` */
    function With(item: Item): (r: Inventory)
      ensures r.Owns(item)
      ensures forall other :: other != item ==> r.Owns(other) == Owns(other)
    {
      match item
      case Turbo => this.(turbo := true)
      case Shield => this.(shield := true)
      case Double => this.(double := true)
      case Traffic => this.(traffic := true)
    }
  }

  /** A traffic car: its top edge and whether it has already been scored. */
  datatype Car = Car(y: int, passed: bool)

  datatype MiniEnemy = MiniEnemy(y: int, hp: int)

  /** A player or boss bullet: its top edge. */
  datatype Bullet = Bullet(y: int)

  function Max(a: int, b: int): (r: int)
    ensures r >= a && r >= b && (r == a || r == b)
  {
    if a >= b then a else b
  }

  /** `lane += dir`, then clamped to the road. */
  function ClampLane(lane: int): (r: int)
    ensures 0 <= r < LaneCount
    ensures 0 <= lane < LaneCount ==> r == lane
    ensures lane < 0 ==> r == 0
    ensures lane >= LaneCount ==> r == LaneCount - 1
  {
    if lane < 0 then 0 else if lane >= LaneCount then LaneCount - 1 else lane
  }

  /** `list.splice(i, 1)`: removes element i, or nothing when i is past the end. */
  function Splice<T>(s: seq<T>, i: nat): (r: seq<T>)
    ensures |r| == if i < |s| then |s| - 1 else |s|
  {
    if i < |s| then s[..i] + s[i + 1..] else s
  }

  /** The coin buffer left after the exchange loop of addScore. */
  function Drained(buffer: int): int {
    if buffer < ExchangeThreshold then buffer else buffer % ExchangeThreshold
  }

  /** The coins the exchange loop of addScore credits. */
  function CoinsFor(buffer: int): int {
    if buffer < ExchangeThreshold then 0 else ExchangeCoins * (buffer / ExchangeThreshold)
  }

  /** `while (coinBuffer >= 100) { coinBuffer -= 100; coins += 5; }` */
  method Exchange(buffer: int, coins: int) returns (b: int, c: int)
    ensures b == Drained(buffer) && c == coins + CoinsFor(buffer)
    ensures b < ExchangeThreshold
    ensures buffer >= 0 ==> 0 <= b && c == coins + ExchangeCoins * (buffer / ExchangeThreshold)
  {
    b, c := buffer, coins;
    ghost var rounds := 0;
    while b >= ExchangeThreshold
      invariant rounds >= 0
      invariant b == buffer - ExchangeThreshold * rounds
      invariant c == coins + ExchangeCoins * rounds
      invariant rounds > 0 ==> b >= 0
      decreases b
    {
      b := b - ExchangeThreshold;
      c := c + ExchangeCoins;
      rounds := rounds + 1;
    }
  }

  /**
   * Whether the car that moves the pass counter on from `counter` spawns a
   * mini-enemy: the counter reaches 15 while fewer than two are on the road.
   */
  predicate SpawnDue(counter: int, count: int) {
    counter + 1 >= MiniSpawnEvery && count < MaxMiniEnemies
  }

  /** The mini-enemies after a pass moved the counter on from `counter`. */
  function AfterCount(minis: seq<MiniEnemy>, counter: int): seq<MiniEnemy> {
    if SpawnDue(counter, |minis|) then minis + [MiniEnemy(MiniSpawnY, MiniStartHP)] else minis
  }

  /**
   * The highest index k < n with strikes(i, k), or -1: the bullet the
   * backward bullet loop meets first when it tests enemy i.
   */
  function LastStrike(n: nat, i: nat, strikes: (nat, nat) -> bool): (r: int)
    ensures -1 <= r < n
    ensures r >= 0 ==> strikes(i, r)
    ensures forall k :: r < k < n ==> !strikes(i, k)
  {
    if n == 0 then -1 else if strikes(i, n - 1) then n - 1 else LastStrike(n - 1, i, strikes)
  }

  /** Whether bullet j (none when j < 0) destroys an enemy `m`: it takes its last hit-point. */
  predicate Kills(m: MiniEnemy, j: int) {
    j >= 0 && m.hp - 1 <= 0
  }

  /** Enemy m after moving dy down the screen. */
  function Advanced(m: MiniEnemy, dy: int): MiniEnemy {
    m.(y := m.y + dy)
  }

  /** The mini-enemy list after bullet j (none when j < 0) has hit enemy i. */
  function AfterHit(minis: seq<MiniEnemy>, i: nat, j: int): seq<MiniEnemy>
    requires i < |minis|
  {
    if j < 0 then minis
    else if Kills(minis[i], j) then Splice(minis, i)
    else minis[i := minis[i].(hp := minis[i].hp - 1)]
  }

  /**
   * The mini-enemy list after the step for enemy i, which has moved to `m`
   * and met bullet j: a survivor below the player's bottom edge is dropped.
   */
  function Stepped(minis: seq<MiniEnemy>, i: nat, m: MiniEnemy, j: int, bottom: int): seq<MiniEnemy>
    requires i < |minis|
  {
    var hit := AfterHit(minis[i := m], i, j);
    if !Kills(m, j) && m.y > bottom then Splice(hit, i) else hit
  }

  /** The same step as written: the pass test also runs after a kill. */
  function SteppedAsWritten(minis: seq<MiniEnemy>, i: nat, m: MiniEnemy, j: int, bottom: int): seq<MiniEnemy>
    requires i < |minis|
  {
    var hit := AfterHit(minis[i := m], i, j);
    if m.y > bottom then Splice(hit, i) else hit
  }

  /**
   * `after` differs from `before` at most at index i: the elements before i
   * and those after i are the same, in order, and element i is either
   * replaced or removed.
   */
  ghost predicate OnlyTouches<T>(before: seq<T>, after: seq<T>, i: nat)
    requires i < |before|
  {
    && (|after| == |before| || |after| == |before| - 1)
    && after[..i] == before[..i]
    && after[|after| - (|before| - i - 1)..] == before[i + 1..]
  }

  lemma UpdateTouches<T>(s: seq<T>, i: nat, x: T)
    requires i < |s|
    ensures OnlyTouches(s, s[i := x], i)
  {
    assert s[i := x][i + 1..] == s[i + 1..];
  }

  lemma SpliceTouches<T>(s: seq<T>, i: nat)
    requires i < |s|
    ensures OnlyTouches(s, Splice(s, i), i)
  {
    assert Splice(s, i)[i..] == s[i + 1..];
  }

  lemma TouchesTrans<T>(a: seq<T>, b: seq<T>, c: seq<T>, i: nat)
    requires i < |a| == |b|
    requires OnlyTouches(a, b, i) && OnlyTouches(b, c, i)
    ensures OnlyTouches(a, c, i)
  {
  }

  /**
   * The corrected mini-enemy step leaves every enemy but the i-th alone,
   * whatever the bullets and positions.
   */
  lemma SteppedTouches(minis: seq<MiniEnemy>, i: nat, m: MiniEnemy, j: int, bottom: int)
    requires i < |minis|
    ensures OnlyTouches(minis, Stepped(minis, i, m, j, bottom), i)
  {
    var moved := minis[i := m];
    var hit := AfterHit(moved, i, j);
    UpdateTouches(minis, i, m);
    AfterHitTouches(moved, i, j);
    TouchesTrans(minis, moved, hit, i);
    if !Kills(m, j) && m.y > bottom {
      SpliceTouches(hit, i);
      TouchesTrans(minis, hit, Splice(hit, i), i);
    }
  }

  /**
   * The step as written does not: an enemy on its last hit-point that is shot
   * just as it passes the player takes the next enemy down with it.
   */
  lemma SteppedAsWrittenDropsNeighbour()
    ensures var minis := [MiniEnemy(695, 1), MiniEnemy(0, 3)];
      var m := Advanced(minis[0], 10);
      && SteppedAsWritten(minis, 0, m, 0, 700) == []
      && !OnlyTouches(minis, SteppedAsWritten(minis, 0, m, 0, 700), 0)
      && Stepped(minis, 0, m, 0, 700) == [MiniEnemy(0, 3)]
  {
    var minis := [MiniEnemy(695, 1), MiniEnemy(0, 3)];
    var m := Advanced(minis[0], 10);
    assert Kills(m, 0);
    assert AfterHit(minis[0 := m], 0, 0) == [MiniEnemy(0, 3)];
  }

  lemma AfterHitTouches(minis: seq<MiniEnemy>, i: nat, j: int)
    requires i < |minis|
    ensures OnlyTouches(minis, AfterHit(minis, i, j), i)
  {
    if j >= 0 {
      if Kills(minis[i], j) {
        SpliceTouches(minis, i);
      } else {
        UpdateTouches(minis, i, minis[i].(hp := minis[i].hp - 1));
      }
    }
  }

  /** The index a backward search stops at is the last strike. */
  lemma {:induction false} LastStrikeIs(n: nat, i: nat, strikes: (nat, nat) -> bool, j: int)
    requires -1 <= j < n && (j >= 0 ==> strikes(i, j))
    requires forall k :: j < k < n ==> !strikes(i, k)
    ensures LastStrike(n, i, strikes) == j
    decreases n
  {
    if n > 0 && j < n - 1 {
      LastStrikeIs(n - 1, i, strikes, j);
    }
  }

  class Game {
    // Viewport geometry, fixed in this model (resize recomputes it in the source).
    const height: int
    const playerY: int
    const playerH: int

    var mode: Mode
    var paused: bool
    var coins: int
    var best: int
    var inventory: Inventory
    var score: int
    var hearts: int
    var nextBossScore: int
    var coinBuffer: int
    var miniCounter: int
    var bossActive: bool
    var bossHP: int
    var lane: int

    var traffic: seq<Car>
    var miniEnemies: seq<MiniEnemy>
    var playerBullets: seq<Bullet>
    /** `boss !== null` */
    var boss: bool
    var bossBullets: seq<Bullet>

    /**
     * What every handler and every frame keeps: the lane is on the road, the
     * pass counter is below its period, at most two mini-enemies, each with
     * hit-points left; a boss exists exactly during a boss fight, which has
     * hit-points left and no traffic or mini-enemies; boss bullets only during
     * a boss fight; and outside play nothing moves and nothing is paused.
     */
    ghost predicate Valid()
      reads this`lane, this`miniCounter, this`miniEnemies, this`boss, this`bossActive, this`bossHP,
            this`traffic, this`bossBullets, this`mode, this`paused, this`playerBullets
    {
      && 0 <= lane < LaneCount
      && 0 <= miniCounter < MiniSpawnEvery
      && |miniEnemies| <= MaxMiniEnemies
      && (forall m <- miniEnemies :: 0 < m.hp <= MiniStartHP)
      && boss == bossActive
      && (bossActive ==> 0 < bossHP <= BossStartHP && traffic == [] && miniEnemies == [])
      && (!bossActive ==> bossBullets == [])
      && (mode != Play ==> !paused && !bossActive && traffic == [] && miniEnemies == [] && playerBullets == [])
    }

    /** The bottom edge of the player's car. */
    function PlayerBottom(): int {
      playerY + playerH
    }

    /** The vertical half of the car collision test (cars are as tall as the player). */
    predicate OverlapsVertically(y: int) {
      playerY < y + playerH - CrashPad && PlayerBottom() > y + CrashPad
    }

    /** `t.y = height + 500`: a crashed car is pushed below the screen. */
    function Wrecked(c: Car): Car {
      c.(y := height + WreckDrop)
    }

    /** A car whose scoring would start a boss fight, if it passes after moving dy. */
    ghost predicate PassStartsBoss(i: nat, dy: int)
      reads this
    {
      i < |traffic| && !traffic[i].passed && traffic[i].y + dy > PlayerBottom()
      && !bossActive && score + PassPoints >= nextBossScore
    }

    /** The new state of gameOver, relative to the state before it. */
    twostate predicate Ended()
      reads this
    {
      && best == Max(old(best), old(score))
      && coins == Max(0, old(coins) - GameOverPenalty)
      && score == 0 && hearts == StartHearts && nextBossScore == BossInterval
      && traffic == [] && miniEnemies == [] && playerBullets == [] && bossBullets == []
      && !boss && !bossActive
      && mode == Over && !paused
      && inventory == old(inventory) && lane == old(lane) && coinBuffer == old(coinBuffer)
      && miniCounter == old(miniCounter) && bossHP == old(bossHP)
    }

    /** The initial `state` record, from the values read back from storage. */
    constructor (height: int, playerY: int, playerH: int, coins: int, best: int, inventory: Inventory,
                 score: int, hearts: int, nextBossScore: int, coinBuffer: int)
      ensures Valid()
      ensures this.height == height && this.playerY == playerY && this.playerH == playerH
      ensures mode == Menu && !paused && lane == 1 && miniCounter == 0 && !bossActive && bossHP == 0
      ensures this.coins == coins && this.best == best && this.inventory == inventory
      ensures this.score == score && this.hearts == hearts && this.nextBossScore == nextBossScore
      ensures this.coinBuffer == coinBuffer
      ensures traffic == [] && miniEnemies == [] && playerBullets == [] && !boss && bossBullets == []
    {
      this.height, this.playerY, this.playerH := height, playerY, playerH;
      mode, paused := Menu, false;
      this.coins, this.best, this.inventory := coins, best, inventory;
      this.score, this.hearts, this.nextBossScore := score, hearts, nextBossScore;
      this.coinBuffer := coinBuffer;
      miniCounter, bossActive, bossHP, lane := 0, false, 0, 1;
      traffic, miniEnemies, playerBullets, boss, bossBullets := [], [], [], false, [];
    }

    /** startGame: enter play, keeping score, hearts and the boss threshold. */
    method StartGame()
      requires Valid()
      modifies this`mode, this`paused, this`lane, this`miniCounter, this`bossActive, this`boss,
               this`bossBullets, this`traffic, this`miniEnemies, this`playerBullets
      ensures Valid()
      ensures mode == Play && !paused && lane == 1 && miniCounter == 0
      ensures !bossActive && !boss && bossBullets == [] && traffic == [] && miniEnemies == [] && playerBullets == []
    {
      mode, paused, lane, miniCounter := Play, false, 1, 0;
      bossActive, boss, bossBullets := false, false, [];
      traffic, miniEnemies, playerBullets := [], [], [];
    }

    /** move(dir): a lane change, honoured only while playing and not paused. */
    method Move(dir: int)
      requires Valid()
      modifies this`lane
      ensures Valid()
      ensures if old(mode) == Play && !old(paused) then lane == ClampLane(old(lane) + dir) else lane == old(lane)
    {
      if mode != Play || paused {
        return;
      }
      lane := lane + dir;
      if lane < 0 {
        lane := 0;
      }
      if lane >= LaneCount {
        lane := LaneCount - 1;
      }
    }

    /** togglePause: only while playing. */
    method TogglePause()
      requires Valid()
      modifies this`paused
      ensures Valid()
      ensures paused == if mode == Play then !old(paused) else old(paused)
    {
      if mode != Play {
        return;
      }
      paused := !paused;
    }

    /** The visibilitychange (hidden) and blur handlers: pause a running game. */
    method Suspend()
      requires Valid()
      modifies this`paused
      ensures Valid()
      ensures paused == (mode == Play || old(paused))
    {
      if mode == Play {
        paused := true;
      }
    }

    /** buyItem(item, price): a purchase needs the item unowned and enough coins. */
    method BuyItem(item: Item, price: int)
      requires Valid()
      modifies this`coins, this`inventory
      ensures Valid()
      ensures if !old(inventory).Owns(item) && old(coins) >= price
        then coins == old(coins) - price && inventory == old(inventory).With(item) && coins >= 0
        else coins == old(coins) && inventory == old(inventory)
    {
      if inventory.Owns(item) {
        return;
      }
      if coins >= price {
        coins := coins - price;
        inventory := inventory.With(item);
      }
    }

    /** startBossFight */
    method StartBossFight()
      requires Valid() && mode == Play
      modifies this`bossActive, this`bossHP, this`boss, this`traffic, this`miniEnemies
      ensures Valid()
      ensures bossActive && bossHP == BossStartHP && boss && traffic == [] && miniEnemies == []
    {
      bossActive := true;
      bossHP := BossStartHP;
      boss := true;
      traffic := [];
      miniEnemies := [];
    }

    /** endBossFight: the reward and the next threshold. */
    method EndBossFight()
      requires Valid()
      modifies this`bossActive, this`score, this`nextBossScore, this`boss, this`bossBullets
      ensures Valid()
      ensures !bossActive && !boss && bossBullets == []
      ensures score == old(score) + BossReward && nextBossScore == old(nextBossScore) + BossInterval
    {
      bossActive := false;
      score := score + BossReward;
      nextBossScore := nextBossScore + BossInterval;
      boss := false;
      bossBullets := [];
    }

    /** addScore: 20 points, the coin exchange, and the boss trigger. */
    method AddScore()
      requires Valid() && mode == Play
      modifies this`score, this`coinBuffer, this`coins, this`bossActive, this`bossHP, this`boss,
               this`traffic, this`miniEnemies
      ensures Valid()
      ensures score == old(score) + PassPoints
      ensures coinBuffer == Drained(old(coinBuffer) + PassPoints)
      ensures coins == old(coins) + CoinsFor(old(coinBuffer) + PassPoints)
      ensures if !old(bossActive) && score >= old(nextBossScore)
        then bossActive && boss && bossHP == BossStartHP && traffic == [] && miniEnemies == []
        else bossActive == old(bossActive) && boss == old(boss) && bossHP == old(bossHP)
             && traffic == old(traffic) && miniEnemies == old(miniEnemies)
    {
      score := score + PassPoints;
      coinBuffer := coinBuffer + PassPoints;
      coinBuffer, coins := Exchange(coinBuffer, coins);
      if !bossActive && score >= nextBossScore {
        StartBossFight();
      }
    }

    /** gameOver: best score, coin penalty, session reset, everything cleared. */
    method GameOver()
      requires Valid()
      modifies this`best, this`coins, this`score, this`hearts, this`nextBossScore,
               this`miniEnemies, this`playerBullets, this`bossBullets, this`boss, this`bossActive, this`traffic,
               this`mode, this`paused
      ensures Valid()
      ensures Ended()
    {
      Settle();
      Clear();
    }

    /** The scores of gameOver: best score kept, coin penalty, session values reset. */
    method Settle()
      modifies this`best, this`coins, this`score, this`hearts, this`nextBossScore
      ensures best == Max(old(best), old(score)) && coins == Max(0, old(coins) - GameOverPenalty)
      ensures score == 0 && hearts == StartHearts && nextBossScore == BossInterval
    {
      if score > best {
        best := score;
      }
      coins := Max(0, coins - GameOverPenalty);
      score, hearts, nextBossScore := 0, StartHearts, BossInterval;
    }

    /** The entity lists and the boss emptied, and the game over screen. */
    method Clear()
      modifies this`miniEnemies, this`playerBullets, this`bossBullets, this`boss, this`bossActive, this`traffic,
               this`mode, this`paused
      ensures miniEnemies == [] && playerBullets == [] && bossBullets == [] && !boss && !bossActive && traffic == []
      ensures mode == Over && !paused
    {
      miniEnemies, playerBullets, bossBullets, boss, bossActive, traffic := [], [], [], false, false, [];
      mode, paused := Over, false;
    }

    /** crash(t) for the car at index i: a shield absorbs it, otherwise a heart is lost. */
    method Crash(i: nat)
      requires Valid() && mode == Play && i < |traffic|
      modifies this`inventory, this`hearts, this`traffic, this`best, this`coins, this`score, this`nextBossScore,
               this`miniEnemies, this`playerBullets, this`bossBullets, this`boss, this`bossActive,
               this`mode, this`paused
      ensures Valid()
      ensures old(inventory.shield) ==>
        && inventory == old(inventory).(shield := false)
        && traffic == old(traffic)[i := Wrecked(old(traffic[i]))]
        && unchanged(this`hearts, this`mode, this`paused, this`coins, this`best, this`score)
        && unchanged(this`nextBossScore, this`coinBuffer, this`miniCounter, this`bossActive, this`bossHP)
        && unchanged(this`lane, this`miniEnemies, this`playerBullets, this`boss, this`bossBullets)
      ensures !old(inventory.shield) && old(hearts) - 1 > 0 ==>
        && hearts == old(hearts) - 1
        && traffic == old(traffic)[i := Wrecked(old(traffic[i]))]
        && unchanged(this`inventory, this`mode, this`paused, this`coins, this`best, this`score)
        && unchanged(this`nextBossScore, this`coinBuffer, this`miniCounter, this`bossActive, this`bossHP)
        && unchanged(this`lane, this`miniEnemies, this`playerBullets, this`boss, this`bossBullets)
      ensures !old(inventory.shield) && old(hearts) - 1 <= 0 ==> Ended()
    {
      if inventory.shield {
        inventory := inventory.(shield := false);
        traffic := traffic[i := Wrecked(traffic[i])];
        return;
      }
      hearts := hearts - 1;
      traffic := traffic[i := Wrecked(traffic[i])];
      if hearts <= 0 {
        GameOver();
      }
    }

    /** The mini-enemy counter for a passed car (outside boss fights). */
    method CountPass()
      requires Valid() && mode == Play
      modifies this`miniCounter, this`miniEnemies
      ensures Valid()
      ensures old(bossActive) ==> miniCounter == old(miniCounter) && miniEnemies == old(miniEnemies)
      ensures !old(bossActive) ==>
        && miniCounter == (old(miniCounter) + 1) % MiniSpawnEvery
        && miniEnemies == AfterCount(old(miniEnemies), old(miniCounter))
    {
      if !bossActive {
        miniCounter := miniCounter + 1;
        if miniCounter >= MiniSpawnEvery {
          miniCounter := 0;
          if |miniEnemies| < MaxMiniEnemies {
            miniEnemies := miniEnemies + [MiniEnemy(MiniSpawnY, MiniStartHP)];
          }
        }
      }
    }

    /**
     * A car scored as passed: stored back, 20 points, and the mini-enemy
     * counter, which only moves when the points did not start a boss fight.
     */
    method PassCar(i: nat, t: Car)
      requires Valid() && mode == Play && i < |traffic|
      modifies this`traffic, this`score, this`coinBuffer, this`coins, this`bossActive, this`bossHP, this`boss,
               this`miniEnemies, this`miniCounter
      ensures Valid() && mode == Play
      ensures score == old(score) + PassPoints
      ensures coinBuffer == Drained(old(coinBuffer) + PassPoints)
      ensures coins == old(coins) + CoinsFor(old(coinBuffer) + PassPoints)
      ensures if score >= old(nextBossScore)
        then && bossActive && boss && bossHP == BossStartHP && traffic == [] && miniEnemies == []
             && miniCounter == old(miniCounter)
        else && !bossActive && boss == old(boss) && bossHP == old(bossHP) && traffic == old(traffic)[i := t]
             && miniCounter == (old(miniCounter) + 1) % MiniSpawnEvery
             && miniEnemies == AfterCount(old(miniEnemies), old(miniCounter))
    {
      traffic := traffic[i := t];
      AddScore();
      CountPass();
    }

    /** A moved car that is scored: not yet passed and now below the player. */
    predicate Passes(t: Car) {
      !t.passed && t.y > PlayerBottom()
    }

    /** A moved car the loop drops: more than 50 pixels below the screen. */
    predicate Gone(t: Car) {
      t.y > height + TrafficMargin
    }

    /** A moved car, still on the road, that overlaps the player (`alongside`: horizontally). */
    predicate Collides(t: Car, alongside: bool) {
      !Gone(t) && alongside && OverlapsVertically(t.y)
    }

    /** Car i, after moving dy, is crashed into with no shield and the last heart. */
    ghost predicate CrashEnds(i: nat, dy: int, alongside: bool)
      reads this
    {
      i < |traffic| && var t := traffic[i].(y := traffic[i].y + dy);
      !Passes(t) && Collides(t, alongside) && !inventory.shield && hearts - 1 <= 0
    }

    /**
     * One iteration of the traffic loop, for the car at index i: it moves dy,
     * is scored once when it first passes the player, and is then dropped below
     * the screen or, overlapping the player, crashed into. `alongside` is the
     * horizontal half of the overlap test.
     */
    method TrafficStep(i: nat, dy: int, alongside: bool)
      requires Valid() && mode == Play && i < |traffic|
      modifies this`traffic, this`score, this`coinBuffer, this`coins, this`bossActive, this`bossHP, this`boss,
               this`miniEnemies, this`miniCounter, this`inventory, this`hearts, this`best, this`nextBossScore,
               this`playerBullets, this`bossBullets, this`mode, this`paused
      ensures Valid()
      ensures (|traffic| >= i && traffic[..i] == old(traffic)[..i])
           || (traffic == [] && (bossActive || mode == Over))
      ensures |traffic| <= old(|traffic|)
      ensures old(PassStartsBoss(i, dy)) ==> bossActive && traffic == [] && mode == Play
      ensures old(CrashEnds(i, dy, alongside)) ==> mode == Over && traffic == []
      ensures var t := old(traffic[i]).(y := old(traffic[i].y) + dy);
        Passes(t) ==>
          && score == old(score) + PassPoints
          && coinBuffer == Drained(old(coinBuffer) + PassPoints)
          && coins == old(coins) + CoinsFor(old(coinBuffer) + PassPoints)
          && unchanged(this`hearts, this`inventory, this`mode, this`paused, this`best, this`nextBossScore)
          && unchanged(this`playerBullets, this`bossBullets)
          && if old(score) + PassPoints >= old(nextBossScore)
             then && bossActive && boss && bossHP == BossStartHP && traffic == [] && miniEnemies == []
                  && miniCounter == old(miniCounter)
             else && unchanged(this`bossActive, this`boss, this`bossHP)
                  && miniCounter == (old(miniCounter) + 1) % MiniSpawnEvery
                  && miniEnemies == AfterCount(old(miniEnemies), old(miniCounter))
                  && traffic == if Gone(t) then Splice(old(traffic), i) else old(traffic)[i := t.(passed := true)]
      ensures var t := old(traffic[i]).(y := old(traffic[i].y) + dy);
        !Passes(t) && !Collides(t, alongside) ==>
          && traffic == (if Gone(t) then Splice(old(traffic), i) else old(traffic)[i := t])
          && unchanged(this`score, this`coins, this`coinBuffer, this`hearts, this`inventory, this`mode, this`paused)
          && unchanged(this`bossActive, this`bossHP, this`boss, this`miniCounter, this`miniEnemies, this`best)
          && unchanged(this`nextBossScore, this`playerBullets, this`bossBullets)
      ensures var t := old(traffic[i]).(y := old(traffic[i].y) + dy);
        !Passes(t) && Collides(t, alongside) ==>
          if old(inventory.shield) then
            && inventory == old(inventory).(shield := false) && traffic == old(traffic)[i := Wrecked(t)]
            && unchanged(this`hearts, this`mode, this`paused, this`coins, this`best, this`score)
            && unchanged(this`nextBossScore, this`coinBuffer, this`miniCounter, this`bossActive, this`bossHP)
            && unchanged(this`miniEnemies, this`playerBullets, this`boss, this`bossBullets)
          else if old(hearts) - 1 > 0 then
            && hearts == old(hearts) - 1 && traffic == old(traffic)[i := Wrecked(t)]
            && unchanged(this`inventory, this`mode, this`paused, this`coins, this`best, this`score)
            && unchanged(this`nextBossScore, this`coinBuffer, this`miniCounter, this`bossActive, this`bossHP)
            && unchanged(this`miniEnemies, this`playerBullets, this`boss, this`bossBullets)
          else Ended()
    {
      var t := traffic[i];
      t := t.(y := t.y + dy);
      if !t.passed && t.y > PlayerBottom() {
        PassStep(i, t);
      } else {
        StillStep(i, t, alongside);
      }
    }

    /** A traffic step for a car that has just passed the player (and so cannot overlap it). */
    method PassStep(i: nat, t: Car)
      requires Valid() && mode == Play && i < |traffic| && Passes(t)
      modifies this`traffic, this`score, this`coinBuffer, this`coins, this`bossActive, this`bossHP, this`boss,
               this`miniEnemies, this`miniCounter
      ensures Valid() && mode == Play
      ensures |traffic| <= old(|traffic|)
      ensures (|traffic| >= i && traffic[..i] == old(traffic)[..i]) || (traffic == [] && bossActive)
      ensures score == old(score) + PassPoints
      ensures coinBuffer == Drained(old(coinBuffer) + PassPoints)
      ensures coins == old(coins) + CoinsFor(old(coinBuffer) + PassPoints)
      ensures if old(score) + PassPoints >= old(nextBossScore)
        then && bossActive && boss && bossHP == BossStartHP && traffic == [] && miniEnemies == []
             && miniCounter == old(miniCounter)
        else && unchanged(this`bossActive, this`boss, this`bossHP)
             && miniCounter == (old(miniCounter) + 1) % MiniSpawnEvery
             && miniEnemies == AfterCount(old(miniEnemies), old(miniCounter))
             && traffic == if Gone(t) then Splice(old(traffic), i) else old(traffic)[i := t.(passed := true)]
    {
      PassCar(i, t.(passed := true));
      if Gone(t) {
        traffic := Splice(traffic, i);  // a no-op once a boss fight has cleared the list
      }
    }

    /** A traffic step for a car that does not pass the player: dropped, crashed into, or stored back. */
    method StillStep(i: nat, t: Car, alongside: bool)
      requires Valid() && mode == Play && i < |traffic| && !Passes(t)
      modifies this`traffic, this`inventory, this`hearts, this`best, this`coins, this`score, this`nextBossScore,
               this`miniEnemies, this`playerBullets, this`bossBullets, this`boss, this`bossActive,
               this`mode, this`paused
      ensures Valid()
      ensures |traffic| <= old(|traffic|)
      ensures (|traffic| >= i && traffic[..i] == old(traffic)[..i]) || (traffic == [] && mode == Over)
      ensures !Collides(t, alongside) ==>
        && traffic == (if Gone(t) then Splice(old(traffic), i) else old(traffic)[i := t])
        && unchanged(this`score, this`coins, this`hearts, this`inventory, this`mode, this`paused)
        && unchanged(this`bossActive, this`boss, this`miniEnemies, this`best)
        && unchanged(this`nextBossScore, this`playerBullets, this`bossBullets)
      ensures Collides(t, alongside) ==>
        if old(inventory.shield) then
          && inventory == old(inventory).(shield := false) && traffic == old(traffic)[i := Wrecked(t)]
          && unchanged(this`hearts, this`mode, this`paused, this`coins, this`best, this`score)
          && unchanged(this`nextBossScore, this`bossActive, this`miniEnemies, this`playerBullets, this`boss)
          && unchanged(this`bossBullets)
        else if old(hearts) - 1 > 0 then
          && hearts == old(hearts) - 1 && traffic == old(traffic)[i := Wrecked(t)]
          && unchanged(this`inventory, this`mode, this`paused, this`coins, this`best, this`score)
          && unchanged(this`nextBossScore, this`bossActive, this`miniEnemies, this`playerBullets, this`boss)
          && unchanged(this`bossBullets)
        else Ended()
    {
      traffic := traffic[i := t];
      if Gone(t) {
        traffic := Splice(traffic, i);
      } else if alongside && OverlapsVertically(t.y) {
        Crash(i);
      }
    }

    /**
     * The traffic loop as written: it walks the indices down from the end
     * even after a boss fight or a game over has emptied `traffic`, so the
     * next `traffic[i]` is undefined and reading its `y` throws.
     */
    method TrafficScanAsWritten(dy: int, alongside: nat -> bool) returns (threw: bool)
      requires Valid()
      modifies this
      ensures Valid()
      ensures threw ==> traffic == [] && (bossActive || mode == Over)
      ensures var last := old(|traffic|) - 1;
        last >= 1 && old(PassStartsBoss(last, dy) || CrashEnds(last, dy, alongside(last))) ==> threw
    {
      ghost var n := |traffic|;
      ghost var trigger := n >= 2 && (PassStartsBoss(n - 1, dy) || CrashEnds(n - 1, dy, alongside(n - 1)));
      var i := |traffic| - 1;
      while i >= 0
        invariant Valid()
        invariant -1 <= i < n
        invariant i < |traffic| || (traffic == [] && (bossActive || mode == Over))
        invariant trigger ==>
          || (i == n - 1 && traffic == old(traffic)
              && (PassStartsBoss(n - 1, dy) || CrashEnds(n - 1, dy, alongside(n - 1))))
          || (i == n - 2 && traffic == [])
        decreases i + 1
      {
        if i >= |traffic| {
          return true;
        }
        TrafficStep(i, dy, alongside(i));
        i := i - 1;
      }
      return false;
    }

    /** The traffic loop, stopping once the list has been cleared under it. */
    method TrafficScan(dy: int, alongside: nat -> bool)
      requires Valid()
      modifies this
      ensures Valid()
      ensures |traffic| <= old(|traffic|)
      ensures old(|traffic|) >= 1 && old(PassStartsBoss(|traffic| - 1, dy)) ==> bossActive && traffic == []
      ensures var last := old(|traffic|) - 1;
        last >= 0 && old(CrashEnds(last, dy, alongside(last))) ==> mode == Over && traffic == []
    {
      ghost var n := |traffic|;
      ghost var boss := n >= 1 && PassStartsBoss(n - 1, dy);
      ghost var fatal := n >= 1 && CrashEnds(n - 1, dy, alongside(n - 1));
      var i := |traffic| - 1;
      while i >= 0
        invariant Valid()
        invariant i < |traffic| <= n
        invariant boss ==>
          (i == n - 1 && traffic == old(traffic) && PassStartsBoss(n - 1, dy)) || (bossActive && traffic == [])
        invariant fatal ==>
          (i == n - 1 && traffic == old(traffic) && CrashEnds(n - 1, dy, alongside(n - 1)))
          || (mode == Over && traffic == [])
        decreases i + 1
      {
        TrafficStep(i, dy, alongside(i));
        i := if i - 1 < |traffic| then i - 1 else |traffic| - 1;
      }
    }

    /** The search of the bullet loop: from the last bullet down, the first that strikes enemy i. */
    method FindStrike(i: nat, strikes: (nat, nat) -> bool) returns (j: int)
      ensures j == LastStrike(|playerBullets|, i, strikes)
    {
      j := |playerBullets| - 1;
      while j >= 0 && !strikes(i, j)
        invariant -1 <= j < |playerBullets|
        invariant forall k :: j < k < |playerBullets| ==> !strikes(i, k)
        decreases j + 1
      {
        j := j - 1;
      }
      LastStrikeIs(|playerBullets|, i, strikes, j);
    }

    /**
     * The bullet loop for mini-enemy i: the first bullet (from the end) that
     * overlaps it is spent and takes one hit-point; an enemy left with none is
     * destroyed for 20 points. Returns whether it was destroyed.
     */
    method HitMini(i: nat, strikes: (nat, nat) -> bool) returns (killed: bool)
      requires Valid() && mode == Play && i < |miniEnemies|
      modifies this`miniEnemies, this`playerBullets, this`score
      ensures Valid()
      ensures var j := LastStrike(old(|playerBullets|), i, strikes);
        && killed == Kills(old(miniEnemies[i]), j)
        && playerBullets == (if j >= 0 then Splice(old(playerBullets), j) else old(playerBullets))
        && score == old(score) + (if killed then MiniKillPoints else 0)
        && miniEnemies == AfterHit(old(miniEnemies), i, j)
    {
      var j := FindStrike(i, strikes);
      killed := false;
      if j >= 0 {
        var m := miniEnemies[i];
        m := m.(hp := m.hp - 1);
        miniEnemies := miniEnemies[i := m];
        playerBullets := Splice(playerBullets, j);
        if m.hp <= 0 {
          score := score + MiniKillPoints;
          miniEnemies := Splice(miniEnemies, i);
          killed := true;
        }
      }
    }

    /**
     * One iteration of the mini-enemy loop as written: an enemy destroyed by
     * a bullet is still tested for passing the player, so it also costs the
     * 20-point penalty and `splice(i, 1)` runs a second time, removing the
     * enemy that has moved into index i.
     */
    method MiniStepAsWritten(i: nat, dy: int, strikes: (nat, nat) -> bool)
      requires Valid() && mode == Play && i < |miniEnemies|
      modifies this`miniEnemies, this`playerBullets, this`score
      ensures Valid()
      ensures var m := Advanced(old(miniEnemies[i]), dy);
        var j := LastStrike(old(|playerBullets|), i, strikes);
        && playerBullets == (if j >= 0 then Splice(old(playerBullets), j) else old(playerBullets))
        && score == old(score) + (if Kills(m, j) then MiniKillPoints else 0)
                               - (if m.y > PlayerBottom() then MiniPassPenalty else 0)
        && miniEnemies == SteppedAsWritten(old(miniEnemies), i, m, j, PlayerBottom())
    {
      var m := MoveMini(i, dy);
      var killed := HitMini(i, strikes);
      if m.y > PlayerBottom() {
        DropMini(i);  // after a kill, removes the enemy that moved into index i, if any
      }
    }

    /**
     * One iteration of the mini-enemy loop: the enemy moves dy and is hit;
     * one that survives and has passed the player is dropped for a 20-point
     * penalty.
     */
    method MiniStep(i: nat, dy: int, strikes: (nat, nat) -> bool)
      requires Valid() && mode == Play && i < |miniEnemies|
      modifies this`miniEnemies, this`playerBullets, this`score
      ensures Valid()
      ensures var m := Advanced(old(miniEnemies[i]), dy);
        var j := LastStrike(old(|playerBullets|), i, strikes);
        && playerBullets == (if j >= 0 then Splice(old(playerBullets), j) else old(playerBullets))
        && score == old(score) + (if Kills(m, j) then MiniKillPoints
                                  else if m.y > PlayerBottom() then -MiniPassPenalty else 0)
        && miniEnemies == Stepped(old(miniEnemies), i, m, j, PlayerBottom())
    {
      var m := MoveMini(i, dy);
      var killed := HitMini(i, strikes);
      if !killed && m.y > PlayerBottom() {
        DropMini(i);
      }
    }

    /** `m.y += 180 * dt` for mini-enemy i. */
    method MoveMini(i: nat, dy: int) returns (m: MiniEnemy)
      requires Valid() && i < |miniEnemies|
      modifies this`miniEnemies
      ensures Valid()
      ensures m == Advanced(old(miniEnemies[i]), dy) && miniEnemies == old(miniEnemies)[i := m]
    {
      m := miniEnemies[i];
      m := m.(y := m.y + dy);
      miniEnemies := miniEnemies[i := m];
      assert forall e <- miniEnemies :: e == m || e in old(miniEnemies);
    }

    /** A mini-enemy that got past the player: dropped, for a 20-point penalty. */
    method DropMini(i: nat)
      requires Valid() && mode == Play
      modifies this`miniEnemies, this`score
      ensures Valid()
      ensures miniEnemies == Splice(old(miniEnemies), i) && score == old(score) - MiniPassPenalty
    {
      score := score - MiniPassPenalty;
      miniEnemies := Splice(miniEnemies, i);
    }

    /** The mini-enemy loop, last enemy first. */
    method MiniScan(dy: int, strikes: (nat, nat) -> bool)
      requires Valid()
      modifies this`miniEnemies, this`playerBullets, this`score
      ensures Valid()
      ensures |miniEnemies| <= old(|miniEnemies|) && |playerBullets| <= old(|playerBullets|)
    {
      var i := |miniEnemies| - 1;
      while i >= 0
        invariant Valid()
        invariant i < |miniEnemies| <= old(|miniEnemies|)
        invariant |playerBullets| <= old(|playerBullets|)
        decreases i + 1
      {
        MiniStep(i, dy, strikes);
        i := i - 1;
      }
    }

    /** The boss fires when its timer runs out (`fires`). */
    method BossShoot(fires: bool)
      requires Valid()
      modifies this`bossBullets
      ensures Valid()
      ensures bossBullets == old(bossBullets) + (if bossActive && boss && fires then [Bullet(BossBulletSpawnY)] else [])
    {
      if bossActive && boss && fires {
        bossBullets := bossBullets + [Bullet(BossBulletSpawnY)];
      }
    }

    /**
     * One iteration of the boss-bullet loop: a bullet that hits the player
     * costs a heart (game over at none left); one below the screen is dropped.
     */
    method BossBulletStep(i: nat, dy: int, hitsPlayer: bool)
      requires Valid() && mode == Play && i < |bossBullets|
      modifies this`bossBullets, this`hearts, this`best, this`coins, this`score, this`nextBossScore,
               this`miniEnemies, this`playerBullets, this`boss, this`bossActive, this`traffic,
               this`mode, this`paused
      ensures Valid()
      ensures (|bossBullets| >= i && bossBullets[..i] == old(bossBullets)[..i])
           || (bossBullets == [] && mode == Over)
      ensures |bossBullets| <= old(|bossBullets|)
      ensures traffic == old(traffic) || traffic == []
      ensures hitsPlayer && old(hearts) - 1 <= 0 ==> Ended()
      ensures hitsPlayer && old(hearts) - 1 > 0 ==>
        && hearts == old(hearts) - 1 && bossBullets == Splice(old(bossBullets), i)
        && unchanged(this`mode, this`paused, this`score, this`coins, this`best, this`nextBossScore)
        && unchanged(this`bossActive, this`boss, this`traffic, this`miniEnemies, this`playerBullets)
      ensures var b := old(bossBullets[i]).(y := old(bossBullets[i].y) + dy);
        !hitsPlayer ==>
          && bossBullets == (if b.y > height then Splice(old(bossBullets), i) else old(bossBullets)[i := b])
          && unchanged(this`hearts, this`mode, this`paused, this`score, this`coins, this`best, this`nextBossScore)
          && unchanged(this`bossActive, this`boss, this`traffic, this`miniEnemies, this`playerBullets)
    {
      var b := bossBullets[i];
      b := b.(y := b.y + dy);
      bossBullets := bossBullets[i := b];
      if hitsPlayer {
        hearts := hearts - 1;
        bossBullets := Splice(bossBullets, i);
        if hearts <= 0 {
          GameOver();
        }
        return;
      }
      if b.y > height {
        bossBullets := Splice(bossBullets, i);
      }
    }

    /**
     * The boss-bullet loop as written: after a hit ends the game, `gameOver`
     * has emptied `bossBullets`, and the next `bossBullets[i]` is undefined.
     */
    method BossBulletScanAsWritten(dy: int, hitsPlayer: nat -> bool) returns (threw: bool)
      requires Valid()
      modifies this
      ensures Valid()
      ensures threw ==> bossBullets == [] && mode == Over
      ensures old(|bossBullets|) >= 2 && hitsPlayer(old(|bossBullets|) - 1) && old(hearts) <= 1 ==> threw
    {
      ghost var n := |bossBullets|;
      ghost var trigger := n >= 2 && hitsPlayer(n - 1) && hearts <= 1;
      var i := |bossBullets| - 1;
      while i >= 0
        invariant Valid()
        invariant -1 <= i < n
        invariant i < |bossBullets| || (bossBullets == [] && mode == Over)
        invariant trigger ==>
          (i == n - 1 && bossBullets == old(bossBullets) && hearts == old(hearts)) || (i == n - 2 && bossBullets == [])
        decreases i + 1
      {
        if i >= |bossBullets| {
          return true;
        }
        BossBulletStep(i, dy, hitsPlayer(i));
        i := i - 1;
      }
      return false;
    }

    /** The boss-bullet loop, stopping once the game has ended under it. */
    method BossBulletScan(dy: int, hitsPlayer: nat -> bool)
      requires Valid()
      modifies this
      ensures Valid()
      ensures |bossBullets| <= old(|bossBullets|) && |traffic| <= old(|traffic|)
      ensures old(|bossBullets|) >= 1 && hitsPlayer(old(|bossBullets|) - 1) && old(hearts) <= 1 ==>
        mode == Over && bossBullets == [] && hearts == StartHearts
    {
      ghost var n := |bossBullets|;
      ghost var trigger := n >= 1 && hitsPlayer(n - 1) && hearts <= 1;
      var i := |bossBullets| - 1;
      while i >= 0
        invariant Valid()
        invariant i < |bossBullets|
        invariant |bossBullets| <= old(|bossBullets|) && |traffic| <= old(|traffic|)
        invariant trigger ==>
          (i == n - 1 && bossBullets == old(bossBullets) && hearts == old(hearts))
          || (mode == Over && bossBullets == [] && hearts == StartHearts)
        decreases i + 1
      {
        BossBulletStep(i, dy, hitsPlayer(i));
        i := if i - 1 < |bossBullets| then i - 1 else |bossBullets| - 1;
      }
    }

    /**
     * One iteration of the player-bullet loop: during a boss fight a bullet
     * that hits the boss is spent and takes one hit-point, ending the fight at
     * none; a bullet above the screen is dropped.
     */
    method PlayerBulletStep(i: nat, dy: int, hitsBoss: bool)
      requires Valid() && mode == Play && i < |playerBullets|
      modifies this`playerBullets, this`bossHP, this`bossActive, this`score, this`nextBossScore,
               this`boss, this`bossBullets
      ensures Valid()
      ensures |playerBullets| >= i && playerBullets[..i] == old(playerBullets)[..i]
      ensures old(bossActive) && hitsBoss ==>
        && bossHP == old(bossHP) - 1
        && playerBullets == Splice(old(playerBullets), i)
        && (bossHP <= 0 ==> !bossActive && !boss && bossBullets == []
                            && score == old(score) + BossReward
                            && nextBossScore == old(nextBossScore) + BossInterval)
        && (bossHP > 0 ==> bossActive && unchanged(this`score, this`nextBossScore, this`bossBullets))
      ensures var b := old(playerBullets[i]).(y := old(playerBullets[i].y) - dy);
        !(old(bossActive) && hitsBoss) ==>
          && playerBullets == (if b.y < BulletTopLimit then Splice(old(playerBullets), i) else old(playerBullets)[i := b])
          && unchanged(this`bossHP, this`bossActive, this`score, this`nextBossScore, this`boss, this`bossBullets)
    {
      var b := playerBullets[i];
      b := b.(y := b.y - dy);
      playerBullets := playerBullets[i := b];
      if bossActive && boss && hitsBoss {
        var hp := bossHP - 1;
        playerBullets := Splice(playerBullets, i);
        if hp <= 0 {
          EndBossFight();  // does not read the hit-points, so it may run before they are stored
        }
        bossHP := hp;
        return;
      }
      if b.y < BulletTopLimit {
        playerBullets := Splice(playerBullets, i);
      }
    }

    /** The player-bullet loop, last bullet first. */
    method PlayerBulletScan(dy: int, hitsBoss: nat -> bool)
      requires Valid()
      modifies this`playerBullets, this`bossHP, this`bossActive, this`score, this`nextBossScore,
               this`boss, this`bossBullets
      ensures Valid()
      ensures |playerBullets| <= old(|playerBullets|)
      ensures old(bossActive) ==> nextBossScore >= old(nextBossScore)
    {
      var i := |playerBullets| - 1;
      while i >= 0
        invariant Valid()
        invariant i < |playerBullets| <= old(|playerBullets|)
        invariant old(bossActive) ==> nextBossScore >= old(nextBossScore)
        decreases i + 1
      {
        PlayerBulletStep(i, dy, hitsBoss(i));
        i := i - 1;
      }
    }

    /**
     * One frame of `loop`, with the three loops corrected: nothing happens
     * unless the game is being played and not paused; otherwise `update`
     * spawns a car (`spawnCar`, outside boss fights) and runs the traffic,
     * mini-enemy, boss, boss-bullet and player-bullet passes in that order.
     * The frame as written differs where the as-written loops above do: a
     * loop that throws ends the frame and, since the exception also leaves
     * `loop` before it asks for the next frame, the animation.
     */
    method Update(spawnCar: bool, carDy: int, alongside: nat -> bool,
                  miniDy: int, strikes: (nat, nat) -> bool,
                  bossFires: bool, bossBulletDy: int, hitsPlayer: nat -> bool,
                  bulletDy: int, hitsBoss: nat -> bool)
      requires Valid()
      modifies this
      ensures Valid()
      ensures old(mode) != Play || old(paused) ==> unchanged(this)
      ensures old(bossActive) ==> traffic == []
      ensures old(mode) == Play && !old(paused) && !old(bossActive) && spawnCar ==> |traffic| <= old(|traffic|) + 1
    {
      if mode != Play || paused {
        return;
      }
      if !bossActive && spawnCar {
        traffic := traffic + [Car(CarSpawnY, false)];
      }
      TrafficScan(carDy, alongside);
      MiniScan(miniDy, strikes);
      BossShoot(bossFires);
      BossBulletScan(bossBulletDy, hitsPlayer);
      PlayerBulletScan(bulletDy, hitsBoss);
    }

    /**
     * The touchstart handler: a tap on a mini-enemy (or else on the boss)
     * fires one bullet for one coin, if there is a coin; then the tap moves
     * the car one lane toward its side of the screen.
     */
    method Tap(onMini: nat -> bool, onBoss: bool, leftHalf: bool) returns (fired: bool)
      requires Valid()
      modifies this`coins, this`playerBullets, this`lane
      ensures Valid()
      ensures var live := old(mode) == Play && !old(paused);
        var aimed := (exists k :: 0 <= k < |miniEnemies| && onMini(k)) || (bossActive && boss && onBoss);
        fired == (live && aimed && old(coins) > 0)
      ensures coins == old(coins) - (if fired then 1 else 0)
      ensures old(coins) >= 0 ==> coins >= 0
      ensures playerBullets == old(playerBullets) + (if fired then [Bullet(playerY)] else [])
      ensures lane == if old(mode) == Play && !old(paused)
                      then ClampLane(old(lane) + (if leftHalf then -1 else 1)) else old(lane)
    {
      fired := false;
      if mode != Play || paused {
        return;
      }
      // the first mini-enemy under the tap, while there is a coin to spend
      var k := 0;
      while k < |miniEnemies| && !(onMini(k) && coins > 0)
        invariant 0 <= k <= |miniEnemies|
        invariant coins <= 0 || forall q :: 0 <= q < k ==> !onMini(q)
      {
        k := k + 1;
      }
      if k < |miniEnemies| {
        playerBullets := playerBullets + [Bullet(playerY)];
        coins := coins - 1;
        fired := true;
      }
      if !fired && bossActive && boss && onBoss && coins > 0 {
        playerBullets := playerBullets + [Bullet(playerY)];
        coins := coins - 1;
        fired := true;
      }
      Move(if leftHalf then -1 else 1);
    }
  }

  // -----------------------------------------------------------------------
  // The two defects of the frame loops, on concrete states
  // -----------------------------------------------------------------------

  /** A game in play with the given traffic, score, boss threshold and hearts. */
  method PlayingGame(traffic: seq<Car>, score: int, nextBossScore: int, hearts: int) returns (g: Game)
    ensures fresh(g) && g.Valid() && g.mode == Play && !g.paused && !g.bossActive && !g.inventory.shield
    ensures g.traffic == traffic && g.score == score && g.nextBossScore == nextBossScore && g.hearts == hearts
    ensures g.playerY == 600 && g.playerH == 100 && g.height == 800
    ensures g.miniEnemies == [] && g.playerBullets == [] && g.bossBullets == []
  {
    g := new Game(800, 600, 100, 0, 0, Inventory(false, false, false, false), score, hearts, nextBossScore, 0);
    g.StartGame();
    g.traffic := traffic;
  }

  /**
   * Score 9980, boss at 10000, two cars, the older one lower down and already
   * scored: the newer one passes the player and starts the boss fight, which
   * empties `traffic`; the loop as written then reads `traffic[0]` and throws,
   * while the corrected loop stops.
   */
  method BossStartAbortsTrafficScan() returns (asWrittenThrew: bool, correctedBoss: bool)
    ensures asWrittenThrew && correctedBoss
  {
    var cars := [Car(790, true), Car(695, false)];
    var g := PlayingGame(cars, 9980, 10000, StartHearts);
    asWrittenThrew := g.TrafficScanAsWritten(10, _ => false);
    var h := PlayingGame(cars, 9980, 10000, StartHearts);
    h.TrafficScan(10, _ => false);
    correctedBoss := h.bossActive && h.traffic == [];
  }

  /**
   * One heart and no shield, two cars, the older one lower down and already
   * scored: the newer one is crashed into, the game ends and `traffic` is
   * emptied; the loop as written then reads `traffic[0]` and throws, while
   * the corrected loop stops on the game over screen.
   */
  method FatalCrashAbortsTrafficScan() returns (asWrittenThrew: bool, correctedOver: bool)
    ensures asWrittenThrew && correctedOver
  {
    var cars := [Car(780, true), Car(600, false)];
    var g := PlayingGame(cars, 0, BossInterval, 1);
    asWrittenThrew := g.TrafficScanAsWritten(10, k => k == 1);
    var h := PlayingGame(cars, 0, BossInterval, 1);
    h.TrafficScan(10, k => k == 1);
    correctedOver := h.mode == Over && h.traffic == [];
  }

  /** A game in play with the given mini-enemies and player bullets. */
  method GameWithMinis(minis: seq<MiniEnemy>, bullets: seq<Bullet>) returns (g: Game)
    requires |minis| <= MaxMiniEnemies && forall m <- minis :: 0 < m.hp <= MiniStartHP
    ensures fresh(g) && g.Valid() && g.mode == Play && !g.paused
    ensures g.miniEnemies == minis && g.playerBullets == bullets && g.score == 0
    ensures g.playerY == 600 && g.playerH == 100
  {
    g := new Game(800, 600, 100, 0, 0, Inventory(false, false, false, false), 0, StartHearts, BossInterval, 0);
    g.StartGame();
    g.miniEnemies := minis;
    g.playerBullets := bullets;
  }

  /**
   * Two mini-enemies, the older one lower down; it is on its last hit-point,
   * has just passed the player and is hit by the only bullet. As written, the
   * step at index 0 removes it and then the untouched second enemy too, for
   * no net points; corrected, the second enemy stays and the kill earns 20
   * points. A bullet starts at the player's top edge and only rises, so in
   * the running game it can overlap an enemy below the player only after the
   * viewport has been made shorter, which moves the player up: the bullet at
   * 700 was fired from a viewport 1000 pixels tall.
   */
  method DestroyedMiniSplicedTwice() returns (asWritten: seq<MiniEnemy>, asWrittenScore: int,
                                               corrected: seq<MiniEnemy>, correctedScore: int)
    ensures asWritten == [] && asWrittenScore == 0
    ensures corrected == [MiniEnemy(0, 3)] && correctedScore == MiniKillPoints
  {
    var minis := [MiniEnemy(695, 1), MiniEnemy(0, 3)];
    var strikes := (i: nat, j: nat) => i == 0 && j == 0;
    var g := GameWithMinis(minis, [Bullet(700)]);
    g.MiniStepAsWritten(0, 10, strikes);
    asWritten, asWrittenScore := g.miniEnemies, g.score;
    var h := GameWithMinis(minis, [Bullet(700)]);
    h.MiniStep(0, 10, strikes);
    corrected, correctedScore := h.miniEnemies, h.score;
  }

  /**
   * Hearts 1 and two boss bullets, the older one lower down, and the newer
   * one hits the player: the game ends inside the loop, and the loop as
   * written then reads `bossBullets[0]` of the emptied list and throws.
   * Bullets leave the boss 1.2 seconds apart at 300 pixels a second, so the
   * older one is still on the screen only in a viewport this tall.
   */
  method GameOverAbortsBossBulletScan() returns (threw: bool)
    ensures threw
  {
    var g := new Game(1600, 1200, 150, 0, 0, Inventory(false, false, false, false), 9980, 1, 10000, 0);
    g.StartGame();
    g.StartBossFight();
    g.bossBullets := [Bullet(1560), Bullet(1200)];
    threw := g.BossBulletScanAsWritten(10, k => k == 1);
  }
}
