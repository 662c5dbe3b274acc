/** The simulation core of `Game`: spawning, the per-tick sweep that updates
    every body and tests it against the player, and off-screen pruning. */
module Simulation {
  import opened Bodies
  import opened Keyboard
  import opened Players

  /** Enemy spawn chance per tick since the last enemy. */
  const EnemyRate: real := 0.0001

  /** The counter value right after an enemy spawns. */
  const TicksAfterSpawn: real := 0.001

  /** Cloud spawn chance per tick. */
  const CloudRate: real := 0.001

  /** An element of `this.bodies`. The player object is shared between the
      array and `this.player`, so its slot holds no copy of its state. */
  datatype Entry = PlayerEntry | Actor(body: Body)

  /** The `Math.random()` samples one update draws, in draw order. */
  datatype Draws = Draws(enemy: real, cloud: real, cloudY: real, cloudWidth: real, cloudHeight: real)

  /** What a game fixes at creation. */
  datatype GameFixed = GameFixed(width: int, height: int, groundY: int, runSpeed: real, player: PlayerFixed, pelican: Body)

  /** What an update changes. */
  datatype World = World(entries: seq<Entry>, player: PlayerState, ticksSinceEnemy: real, gameOver: bool, nextId: nat)

  /** The result of running the body loop over a prefix of the bodies. */
  datatype Swept = Swept(entries: seq<Entry>, player: PlayerState, hit: bool)

  /** The body an entry stands for, given the player's current body. */
  function View(e: Entry, playerBody: Body): Body {
    match e
    case PlayerEntry => playerBody
    case Actor(b) => b
  }

  /** `Enemy.update`, `Clouds.update` and `Pelican.update` (which does nothing). */
  function Moved(b: Body, runSpeed: real): (r: Body)
    ensures r.id == b.id && r.kind == b.kind && r.size == b.size && r.center.y == b.center.y
    ensures b.kind == EnemyKind ==> r.center.x == b.center.x - runSpeed
    ensures b.kind == CloudsKind ==> r.center.x == b.center.x - runSpeed / 3.0
    ensures b.kind == PelicanKind || b.kind == PlayerKind ==> r == b
  {
    match b.kind
    case EnemyKind => b.(center := b.center.(x := b.center.x - runSpeed))
    case CloudsKind => b.(center := b.center.(x := b.center.x - runSpeed / 3.0))
    case _ => b
  }

  function StepEntry(e: Entry, runSpeed: real): Entry {
    match e
    case PlayerEntry => PlayerEntry
    case Actor(b) => Actor(Moved(b, runSpeed))
  }

  /** Every entry after its own update, in place. */
  function StepAll(es: seq<Entry>, runSpeed: real): seq<Entry> {
    seq(|es|, i requires 0 <= i < |es| => StepEntry(es[i], runSpeed))
  }

  /** `this.bodies.filter(bodyOnScreen)`. */
  function KeepOnScreen(es: seq<Entry>, playerBody: Body): (r: seq<Entry>)
    ensures |r| <= |es|
    ensures forall i :: 0 <= i < |r| ==> OnScreen(View(r[i], playerBody))
    decreases |es|
  {
    if es == [] then []
    else (if OnScreen(View(es[0], playerBody)) then [es[0]] else []) + KeepOnScreen(es[1..], playerBody)
  }

  /** The `for (let body of this.bodies)` loop over `es`: each body is updated
      (the player's slot runs `Player.update`), then tested against the player. */
  function Sweep(es: seq<Entry>, p: PlayerState, pf: PlayerFixed, keyDown: bool, runSpeed: real): Swept
    decreases |es|
  {
    if es == [] then Swept([], p, false)
    else
      var before := Sweep(es[..|es| - 1], p, pf, keyDown, runSpeed);
      var e := es[|es| - 1];
      var q := if e.PlayerEntry? then Step(before.player, pf.startingY, keyDown) else before.player;
      var e' := StepEntry(e, runSpeed);
      var pb := AsBody(pf, q);
      Swept(before.entries + [e'], q, before.hit || Colliding(pb, View(e', pb)))
  }

  /** The collision test of loop iteration `i`: the player as it is after that
      iteration against body `i` after its own update. */
  predicate HitAt(es: seq<Entry>, p: PlayerState, pf: PlayerFixed, keyDown: bool, runSpeed: real, i: nat)
    requires i < |es|
  {
    var pb := AsBody(pf, Sweep(es[..i + 1], p, pf, keyDown, runSpeed).player);
    Colliding(pb, View(StepEntry(es[i], runSpeed), pb))
  }

  /** `addEnemy`: a 30 by 30 enemy on the ground at the right edge. */
  function EnemyAt(cfg: GameFixed, id: nat): (r: Body)
    ensures !r.Safe() && r.WellFormed()
  {
    Body(id, EnemyKind, Point(cfg.width as real, (cfg.groundY - 15) as real), Size(30.0, 30.0))
  }

  /** `addClouds`, from the three samples it draws. */
  function CloudAt(cfg: GameFixed, d: Draws, id: nat): (r: Body)
    ensures r.Safe()
  {
    Body(id, CloudsKind,
         Point(cfg.width as real, (d.cloudY * cfg.height as real / 2.0).Floor as real),
         Size(d.cloudWidth * 20.0 + 10.0, d.cloudHeight * 200.0 + 10.0))
  }

  /** The spawning half of `Game.update`. */
  function Spawn(w: World, cfg: GameFixed, d: Draws): World {
    var w1 :=
      if d.enemy < w.ticksSinceEnemy * EnemyRate then
        w.(entries := w.entries + [Actor(EnemyAt(cfg, w.nextId))], nextId := w.nextId + 1,
           ticksSinceEnemy := TicksAfterSpawn)
      else w.(ticksSinceEnemy := w.ticksSinceEnemy + 1.0);
    if d.cloud < CloudRate then
      w1.(entries := w1.entries + [Actor(CloudAt(cfg, d, w1.nextId))], nextId := w1.nextId + 1)
    else w1
  }

  /** One `Game.update`. */
  function Tick(w: World, cfg: GameFixed, d: Draws, keyDown: bool): World {
    var s := Spawn(w, cfg, d);
    var sw := Sweep(s.entries, s.player, cfg.player, keyDown, cfg.runSpeed);
    s.(entries := KeepOnScreen(sw.entries, AsBody(cfg.player, sw.player)),
       player := sw.player,
       gameOver := s.gameOver || sw.hit)
  }

  /** The number of enemies among the entries. */
  function Enemies(es: seq<Entry>): nat
    decreases |es|
  {
    if es == [] then 0
    else (if es[0].Actor? && es[0].body.kind == EnemyKind then 1 else 0) + Enemies(es[1..])
  }

  /** What a game fixes at creation: the player and the pelican start at x >= 0
      with positive width, and are different objects. */
  ghost predicate FixedValid(cfg: GameFixed) {
    cfg.player.x >= 0 && cfg.player.size.width > 0.0 &&
    cfg.pelican.kind == PelicanKind && cfg.pelican.center.x >= 0.0 && cfg.pelican.size.width > 0.0 &&
    cfg.pelican.id != cfg.player.id
  }

  /** A body that `update` added: an enemy or a cloud, a different object from the player. */
  predicate Spawned(e: Entry, cfg: GameFixed, nextId: nat) {
    e.Actor? && (e.body.kind == EnemyKind || e.body.kind == CloudsKind) &&
    e.body.id != cfg.player.id && e.body.id < nextId
  }

  /** The pelican first, the player second, then only spawned bodies. */
  predicate Layout(es: seq<Entry>, cfg: GameFixed, nextId: nat) {
    |es| >= 2 && es[0] == Actor(cfg.pelican) && es[1] == PlayerEntry &&
    forall i :: 2 <= i < |es| ==> Spawned(es[i], cfg, nextId)
  }

  /** The state `new Game` creates and every update keeps: the layout, a sound
      player, fresh ids for what spawns next, and a non-negative counter. */
  ghost predicate WorldValid(w: World, cfg: GameFixed) {
    FixedValid(cfg) &&
    Layout(w.entries, cfg, w.nextId) &&
    cfg.player.id < w.nextId &&
    Sound(w.player, cfg.player.startingY) &&
    w.ticksSinceEnemy >= 0.0
  }

  /** Filtering distributes over concatenation, so it keeps relative order. */
  lemma {:induction false} KeepOnScreenConcat(a: seq<Entry>, b: seq<Entry>, playerBody: Body)
    ensures KeepOnScreen(a + b, playerBody) == KeepOnScreen(a, playerBody) + KeepOnScreen(b, playerBody)
    decreases |a|
  {
    if a != [] {
      assert (a + b)[1..] == a[1..] + b;
      KeepOnScreenConcat(a[1..], b, playerBody);
    } else {
      assert a + b == b;
    }
  }

  /** Filtering keeps exactly the entries that are on screen. */
  lemma {:induction false} KeepOnScreenMember(es: seq<Entry>, playerBody: Body, e: Entry)
    ensures e in KeepOnScreen(es, playerBody) <==> e in es && OnScreen(View(e, playerBody))
    decreases |es|
  {
    if es != [] {
      KeepOnScreenMember(es[1..], playerBody, e);
      assert es == [es[0]] + es[1..];
    }
  }

  /** The loop updates every body exactly once, in place. */
  lemma {:induction false} SweepEntries(es: seq<Entry>, p: PlayerState, pf: PlayerFixed, keyDown: bool, runSpeed: real)
    ensures Sweep(es, p, pf, keyDown, runSpeed).entries == StepAll(es, runSpeed)
    decreases |es|
  {
    if es != [] {
      SweepEntries(es[..|es| - 1], p, pf, keyDown, runSpeed);
    }
  }

  /** The loop reports a hit exactly when one of its iterations' tests succeeds. */
  lemma {:induction false} SweepHit(es: seq<Entry>, p: PlayerState, pf: PlayerFixed, keyDown: bool, runSpeed: real)
    ensures Sweep(es, p, pf, keyDown, runSpeed).hit <==>
      exists i :: 0 <= i < |es| && HitAt(es, p, pf, keyDown, runSpeed, i)
    decreases |es|
  {
    if es != [] {
      var n := |es|;
      var front := es[..n - 1];
      SweepHit(front, p, pf, keyDown, runSpeed);
      forall i | 0 <= i < n - 1
        ensures HitAt(front, p, pf, keyDown, runSpeed, i) == HitAt(es, p, pf, keyDown, runSpeed, i)
      {
        assert front[..i + 1] == es[..i + 1];
      }
      assert es[..n] == es;
      if Sweep(es, p, pf, keyDown, runSpeed).hit {
        if !Sweep(front, p, pf, keyDown, runSpeed).hit {
          assert HitAt(es, p, pf, keyDown, runSpeed, n - 1);
        }
      }
    }
  }

  /** One more iteration of the loop. */
  lemma SweepSnoc(es: seq<Entry>, p: PlayerState, pf: PlayerFixed, keyDown: bool, runSpeed: real, i: nat)
    requires i < |es|
    ensures var before := Sweep(es[..i], p, pf, keyDown, runSpeed);
      var q := if es[i].PlayerEntry? then Step(before.player, pf.startingY, keyDown) else before.player;
      var pb := AsBody(pf, q);
      Sweep(es[..i + 1], p, pf, keyDown, runSpeed) ==
        Swept(before.entries + [StepEntry(es[i], runSpeed)], q,
              before.hit || Colliding(pb, View(StepEntry(es[i], runSpeed), pb)))
  {
    assert es[..i + 1][..i] == es[..i];
  }

  /** Replacing entry `i` of a sequence that agrees with `es` from `i` on
      extends the done prefix by one and keeps the rest. */
  lemma ReplaceAt(es: seq<Entry>, prev: seq<Entry>, i: nat, e: Entry)
    requires |prev| == |es| && i < |es| && prev[i..] == es[i..]
    ensures prev[i := e][..i + 1] == prev[..i] + [e]
    ensures prev[i := e][i + 1..] == es[i + 1..]
  {
    assert prev[i + 1..] == prev[i..][1..];
    assert es[i + 1..] == es[i..][1..];
  }

  /** With the player in slot 1 and nowhere else, the player has been updated
      once after iteration 1 and not before. */
  lemma {:induction false} SweepPlayer(es: seq<Entry>, p: PlayerState, pf: PlayerFixed, keyDown: bool, runSpeed: real, k: nat)
    requires |es| >= 2 && es[1] == PlayerEntry
    requires forall i :: 0 <= i < |es| && i != 1 ==> es[i].Actor?
    requires k <= |es|
    ensures Sweep(es[..k], p, pf, keyDown, runSpeed).player ==
      if k >= 2 then Step(p, pf.startingY, keyDown) else p
    decreases k
  {
    if k > 0 {
      assert es[..k][..k - 1] == es[..k - 1];
      SweepPlayer(es, p, pf, keyDown, runSpeed, k - 1);
    }
  }

  lemma {:induction false} EnemiesConcat(a: seq<Entry>, b: seq<Entry>)
    ensures Enemies(a + b) == Enemies(a) + Enemies(b)
    decreases |a|
  {
    if a != [] {
      assert (a + b)[1..] == a[1..] + b;
      EnemiesConcat(a[1..], b);
    } else {
      assert a + b == b;
    }
  }

  /** Spawning appends: the old bodies stay first and in order, one enemy
      more exactly when the sample is below `ticksSinceEnemy * 0.0001`, at the end
      of the old bodies, and the counter resets to 0.001 or grows by exactly 1. */
  lemma SpawnAppends(w: World, cfg: GameFixed, d: Draws)
    ensures var s := Spawn(w, cfg, d);
      var spawn := d.enemy < w.ticksSinceEnemy * EnemyRate;
      w.entries <= s.entries &&
      Enemies(s.entries) == Enemies(w.entries) + (if spawn then 1 else 0) &&
      (spawn ==> s.entries[|w.entries|] == Actor(EnemyAt(cfg, w.nextId))) &&
      s.ticksSinceEnemy == (if spawn then TicksAfterSpawn else w.ticksSinceEnemy + 1.0)
  {
    var s := Spawn(w, cfg, d);
    var spawn := d.enemy < w.ticksSinceEnemy * EnemyRate;
    var enemy := if spawn then [Actor(EnemyAt(cfg, w.nextId))] else [];
    var cloud := if d.cloud < CloudRate then [Actor(CloudAt(cfg, d, w.nextId + |enemy|))] else [];
    assert s.entries == w.entries + enemy + cloud;
    EnemiesConcat(w.entries + enemy, cloud);
    EnemiesConcat(w.entries, enemy);
    assert Enemies(cloud) == 0;
  }

  lemma SpawnKeepsValid(w: World, cfg: GameFixed, d: Draws)
    requires WorldValid(w, cfg)
    ensures WorldValid(Spawn(w, cfg, d), cfg)
    ensures Spawn(w, cfg, d).player == w.player && Spawn(w, cfg, d).gameOver == w.gameOver
  {
  }

  /** Each update records a collision exactly when one of the spawned bodies,
      after its move, collides with the player after its own update (the pelican
      is safe and the player never collides with itself), and never clears
      `gameOver`. */
  lemma TickGameOver(w: World, cfg: GameFixed, d: Draws, keyDown: bool)
    requires WorldValid(w, cfg)
    ensures var s := Spawn(w, cfg, d);
      var pb := AsBody(cfg.player, Step(w.player, cfg.player.startingY, keyDown));
      Tick(w, cfg, d, keyDown).gameOver <==>
        w.gameOver || exists i :: 2 <= i < |s.entries| && Colliding(pb, Moved(s.entries[i].body, cfg.runSpeed))
  {
    var s := Spawn(w, cfg, d);
    SpawnKeepsValid(w, cfg, d);
    var es := s.entries;
    var pf := cfg.player;
    var pb := AsBody(pf, Step(w.player, pf.startingY, keyDown));
    SweepHit(es, w.player, pf, keyDown, cfg.runSpeed);
    forall i | 0 <= i < |es|
      ensures HitAt(es, w.player, pf, keyDown, cfg.runSpeed, i) <==>
        i >= 2 && Colliding(pb, Moved(es[i].body, cfg.runSpeed))
    {
      SweepPlayer(es, w.player, pf, keyDown, cfg.runSpeed, i + 1);
      if i == 0 {
        assert StepEntry(es[0], cfg.runSpeed) == Actor(cfg.pelican);
      }
    }
  }

  /** Moving every body keeps the layout: the pelican does not move, and the
      other bodies keep their kind and identity. */
  lemma StepAllKeepsLayout(es: seq<Entry>, cfg: GameFixed, nextId: nat)
    requires FixedValid(cfg) && Layout(es, cfg, nextId)
    ensures Layout(StepAll(es, cfg.runSpeed), cfg, nextId)
  {
    var r := StepAll(es, cfg.runSpeed);
    forall i | 2 <= i < |r|
      ensures Spawned(r[i], cfg, nextId)
    {
      assert Spawned(es[i], cfg, nextId);
    }
  }

  /** Pruning keeps the layout: the pelican and the player start at x >= 0
      with positive width, so they are never off screen. */
  lemma PruneKeepsLayout(es: seq<Entry>, p: PlayerState, cfg: GameFixed, nextId: nat)
    requires FixedValid(cfg) && Layout(es, cfg, nextId)
    ensures Layout(KeepOnScreen(es, AsBody(cfg.player, p)), cfg, nextId)
  {
    var pb := AsBody(cfg.player, p);
    assert es == es[..2] + es[2..];
    KeepOnScreenConcat(es[..2], es[2..], pb);
    assert KeepOnScreen(es[..2], pb) == es[..2] by {
      assert es[..2][1..] == [PlayerEntry];
      assert [PlayerEntry][1..] == [];
    }
    var kept := KeepOnScreen(es[2..], pb);
    var r := KeepOnScreen(es, pb);
    assert r == es[..2] + kept;
    forall i | 2 <= i < |r|
      ensures Spawned(r[i], cfg, nextId)
    {
      assert r[i] == kept[i - 2];
      KeepOnScreenMember(es[2..], pb, r[i]);
    }
  }

  /** Every update keeps the state valid: in particular the pelican and the
      player are never pruned and only spawned bodies follow them. */
  lemma TickKeepsValid(w: World, cfg: GameFixed, d: Draws, keyDown: bool)
    requires WorldValid(w, cfg)
    ensures WorldValid(Tick(w, cfg, d, keyDown), cfg)
  {
    var s := Spawn(w, cfg, d);
    SpawnKeepsValid(w, cfg, d);
    var pf := cfg.player;
    var sw := Sweep(s.entries, s.player, pf, keyDown, cfg.runSpeed);
    SweepEntries(s.entries, s.player, pf, keyDown, cfg.runSpeed);
    SweepPlayer(s.entries, s.player, pf, keyDown, cfg.runSpeed, |s.entries|);
    assert s.entries[..|s.entries|] == s.entries;
    StepKeepsSound(s.player, pf.startingY, keyDown);
    StepAllKeepsLayout(s.entries, cfg, s.nextId);
    PruneKeepsLayout(sw.entries, sw.player, cfg, s.nextId);
  }

  /** An update moves every body once and then prunes, keeping order. */
  lemma TickEntries(w: World, cfg: GameFixed, d: Draws, keyDown: bool)
    ensures var s := Spawn(w, cfg, d);
      var t := Tick(w, cfg, d, keyDown);
      t.entries == KeepOnScreen(StepAll(s.entries, cfg.runSpeed), AsBody(cfg.player, t.player))
  {
    var s := Spawn(w, cfg, d);
    SweepEntries(s.entries, s.player, cfg.player, keyDown, cfg.runSpeed);
  }

  /** What one animation frame feeds `update`: the S key state and the samples. */
  datatype Frame = Frame(keyDown: bool, draws: Draws)

  /** The world after one update per frame. */
  function Frames(w: World, cfg: GameFixed, frames: seq<Frame>): World
    decreases |frames|
  {
    if frames == [] then w
    else Frames(Tick(w, cfg, frames[0].draws, frames[0].keyDown), cfg, frames[1..])
  }

  /** How many frames `run` updates before it stops scheduling: it updates
      once, then asks for another frame only while the game is not over. */
  function Session(w: World, cfg: GameFixed, frames: seq<Frame>): (r: nat)
    ensures r <= |frames|
    ensures frames != [] ==> r >= 1
    decreases |frames|
  {
    if frames == [] then 0
    else
      var next := Tick(w, cfg, frames[0].draws, frames[0].keyDown);
      if next.gameOver then 1 else 1 + Session(next, cfg, frames[1..])
  }

  /** `run` stops right after the first update that ends the game, and
      otherwise uses every frame it is given. */
  lemma {:induction false} SessionStops(w: World, cfg: GameFixed, frames: seq<Frame>)
    ensures var n := Session(w, cfg, frames);
      (n < |frames| ==> Frames(w, cfg, frames[..n]).gameOver) &&
      (forall k :: 0 < k < n ==> !Frames(w, cfg, frames[..k]).gameOver)
    decreases |frames|
  {
    if frames != [] {
      var next := Tick(w, cfg, frames[0].draws, frames[0].keyDown);
      var rest := frames[1..];
      FramesPrefix(w, cfg, frames);
      if !next.gameOver {
        SessionStops(next, cfg, rest);
      }
    }
  }

  /** The first `k` frames are the first update followed by the next `k - 1`. */
  lemma FramesPrefix(w: World, cfg: GameFixed, frames: seq<Frame>)
    requires frames != []
    ensures forall k :: 0 < k <= |frames| ==>
      Frames(w, cfg, frames[..k]) == Frames(Tick(w, cfg, frames[0].draws, frames[0].keyDown), cfg, frames[1..][..k - 1])
  {
    forall k | 0 < k <= |frames|
      ensures Frames(w, cfg, frames[..k]) == Frames(Tick(w, cfg, frames[0].draws, frames[0].keyDown), cfg, frames[1..][..k - 1])
    {
      assert frames[..k][1..] == frames[1..][..k - 1];
    }
  }

  /** Once over, a game stays over whatever later frames bring. */
  lemma {:induction false} GameOverIsFinal(w: World, cfg: GameFixed, frames: seq<Frame>)
    requires w.gameOver
    ensures Frames(w, cfg, frames).gameOver
    decreases |frames|
  {
    if frames != [] {
      GameOverIsFinal(Tick(w, cfg, frames[0].draws, frames[0].keyDown), cfg, frames[1..]);
    }
  }

  class Game {
    const width: int
    const height: int
    const groundY: int
    const runSpeed: real
    const keyboard: Keyboarder
    const pelican: Body
    const player: Player
    var bodies: seq<Entry>
    var ticksSinceEnemy: real
    var gameOver: bool
    var nextId: nat

    function Fixed(): GameFixed {
      GameFixed(width, height, groundY, runSpeed, player.Fixed(), pelican)
    }

    function State(): World
      reads this, player
    {
      World(bodies, player.State(), ticksSinceEnemy, gameOver, nextId)
    }

    ghost predicate Valid()
      reads this, player
    {
      WorldValid(State(), Fixed())
    }

    /** `new Game(canvasId)` for a canvas of the given size: the pelican and
        the player stand on the ground line at a tenth of the width. */
    constructor (width: nat, height: nat)
      ensures this.width == width && this.height == height
      ensures Valid() && fresh(player) && fresh(keyboard)
      ensures groundY == (height as real * 0.8).Floor && runSpeed == 1.0
      ensures pelican == Body(0, PelicanKind, Point((width as real * 0.1).Floor as real, groundY as real - 45.0), Size(50.0, 90.0))
      ensures player.Fixed() == PlayerFixed(1, (width as real * 0.1).Floor, Size(20.0, 20.0), groundY - 12)
      ensures State() == World([Actor(pelican), PlayerEntry], PlayerState(groundY - 12, 0, false), 0.0, false, 2)
      ensures forall code :: !keyboard.IsDown(code)
    {
      this.width := width;
      this.height := height;
      var ground := (height as real * 0.8).Floor;
      groundY := ground;
      runSpeed := 1.0;
      bodies := [];
      ticksSinceEnemy := 0.0;
      keyboard := new Keyboarder();
      gameOver := false;
      var left := (width as real * 0.1).Floor;
      var pelicanSize := Size(50.0, 90.0);
      pelican := Body(0, PelicanKind, Point(left as real, ground as real - pelicanSize.height / 2.0), pelicanSize);
      var playerSize := Size(20.0, 20.0);
      player := new Player(1, left, ground - 10 - 2, playerSize);
      nextId := 2;
      new;
      AddBody(Actor(pelican));
      AddBody(PlayerEntry);
    }

    /** `addBody`: push at the end. */
    method AddBody(e: Entry)
      modifies this
      ensures bodies == old(bodies) + [e]
      ensures ticksSinceEnemy == old(ticksSinceEnemy) && gameOver == old(gameOver) && nextId == old(nextId)
    {
      bodies := bodies + [e];
    }

    method AddEnemy()
      modifies this
      ensures bodies == old(bodies) + [Actor(EnemyAt(Fixed(), old(nextId)))] && nextId == old(nextId) + 1
      ensures ticksSinceEnemy == old(ticksSinceEnemy) && gameOver == old(gameOver)
    {
      AddBody(Actor(EnemyAt(Fixed(), nextId)));
      nextId := nextId + 1;
    }

    method AddClouds(d: Draws)
      modifies this
      ensures bodies == old(bodies) + [Actor(CloudAt(Fixed(), d, old(nextId)))] && nextId == old(nextId) + 1
      ensures ticksSinceEnemy == old(ticksSinceEnemy) && gameOver == old(gameOver)
    {
      AddBody(Actor(CloudAt(Fixed(), d, nextId)));
      nextId := nextId + 1;
    }

    /** One iteration of the body loop of `Game.update`: update body `i` in
        place (the player's slot runs `Player.update`), then test it against
        the player as it now is. */
    method UpdateEntry(i: nat, pf: PlayerFixed)
      requires i < |bodies| && pf == player.Fixed()
      modifies this, player
      ensures bodies == old(bodies)[i := StepEntry(old(bodies)[i], runSpeed)]
      ensures player.State() ==
        if old(bodies)[i].PlayerEntry? then Step(old(player.State()), pf.startingY, old(keyboard.IsDown(KeyS)))
        else old(player.State())
      ensures var pb := AsBody(pf, player.State());
        gameOver == (old(gameOver) || Colliding(pb, View(bodies[i], pb)))
      ensures ticksSinceEnemy == old(ticksSinceEnemy) && nextId == old(nextId)
    {
      if bodies[i].PlayerEntry? {
        player.Update(keyboard);
      } else {
        bodies := bodies[i := Actor(Moved(bodies[i].body, runSpeed))];
      }
      var playerBody := AsBody(pf, player.State());
      if Colliding(playerBody, View(bodies[i], playerBody)) {
        gameOver := true;
      }
    }

    /** The `for (let body of this.bodies)` loop of `Game.update`. */
    method UpdateBodies()
      modifies this, player
      ensures var sw := Sweep(old(bodies), old(player.State()), player.Fixed(), old(keyboard.IsDown(KeyS)), runSpeed);
        bodies == sw.entries && player.State() == sw.player && gameOver == (old(gameOver) || sw.hit)
      ensures ticksSinceEnemy == old(ticksSinceEnemy) && nextId == old(nextId)
    {
      ghost var es := bodies;
      ghost var p := player.State();
      ghost var over := gameOver;
      ghost var key := keyboard.IsDown(KeyS);
      var pf := player.Fixed();
      var i := 0;
      ghost var sw := Sweep(es[..0], p, pf, key, runSpeed);
      while i < |bodies|
        invariant 0 <= i <= |bodies| == |es|
        invariant bodies[i..] == es[i..]
        invariant keyboard.IsDown(KeyS) == key
        invariant ticksSinceEnemy == old(ticksSinceEnemy) && nextId == old(nextId)
        invariant sw == Sweep(es[..i], p, pf, key, runSpeed)
        invariant sw.entries == bodies[..i] && sw.player == player.State()
        invariant gameOver == (over || sw.hit)
      {
        SweepSnoc(es, p, pf, key, runSpeed, i);
        ghost var prev := bodies;
        assert prev[i] == es[i] by { assert prev[i..][0] == es[i..][0]; }
        UpdateEntry(i, pf);
        ReplaceAt(es, prev, i, StepEntry(es[i], runSpeed));
        sw := Sweep(es[..i + 1], p, pf, key, runSpeed);
        i := i + 1;
      }
      assert es[..i] == es && bodies[..i] == bodies;
    }

    /** The spawning half of `Game.update` (an enemy, then maybe a cloud). */
    method SpawnBodies(d: Draws)
      modifies this
      ensures State() == Spawn(old(State()), Fixed(), d)
    {
      if d.enemy < ticksSinceEnemy * EnemyRate {
        AddEnemy();
        ticksSinceEnemy := TicksAfterSpawn;
      } else {
        ticksSinceEnemy := ticksSinceEnemy + 1.0;
      }
      if d.cloud < CloudRate {
        AddClouds(d);
      }
    }

    /** `Game.update`, with the random samples given and the S key read from the keyboard. */
    method Update(d: Draws)
      modifies this, player
      ensures State() == Tick(old(State()), Fixed(), d, old(keyboard.IsDown(KeyS)))
      ensures old(Valid()) ==> Valid()
    {
      ghost var w := State();
      ghost var key := keyboard.IsDown(KeyS);
      SpawnBodies(d);
      UpdateBodies();
      bodies := KeepOnScreen(bodies, AsBody(player.Fixed(), player.State()));
      if WorldValid(w, Fixed()) {
        TickKeepsValid(w, Fixed(), d, key);
      }
    }
  }
}
