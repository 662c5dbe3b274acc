/** The bodies of the game world: points and sizes, the four kinds of body,
    the collision test `colliding` and the pruning test `bodyOnScreen`. */
module Bodies {

  /** A centre point; coordinates grow to the right and downwards. */
  datatype Point = Point(x: real, y: real)

  datatype Size = Size(width: real, height: real)

  /** The four classes whose objects live in the game's body list. */
  datatype Kind = PlayerKind | EnemyKind | CloudsKind | PelicanKind

  /** A body as seen by the simulation. `id` stands for the identity of the
      JavaScript object, so `b1 === b2` becomes `b1.id == b2.id`. */
  datatype Body = Body(id: nat, kind: Kind, center: Point, size: Size)
  {
    /** Clouds and Pelican set `safe` to true in their constructors; Player
        and Enemy never set it, so it is undefined there and reads as false. */
    predicate Safe() {
      kind == CloudsKind || kind == PelicanKind
    }

    /** Sizes are non-negative for every body the game creates. */
    predicate WellFormed() {
      size.width >= 0.0 && size.height >= 0.0
    }
  }

  /** `colliding(b1, b2)`: the boxes are centred at `center` and span `size`;
      the separation tests are strict, so boxes whose edges only touch collide. */
  predicate Colliding(b1: Body, b2: Body) {
    !(b1.Safe() ||
      b2.Safe() ||
      b1.id == b2.id ||
      b1.center.x + b1.size.width / 2.0 < b2.center.x - b2.size.width / 2.0 ||
      b1.center.y + b1.size.height / 2.0 < b2.center.y - b2.size.height / 2.0 ||
      b1.center.x - b1.size.width / 2.0 > b2.center.x + b2.size.width / 2.0 ||
      b1.center.y - b1.size.height / 2.0 > b2.center.y + b2.size.height / 2.0)
  }

  /** `bodyOnScreen`: a body is kept while its centre is right of `-width`. */
  predicate OnScreen(b: Body) {
    b.center.x > 0.0 - b.size.width
  }

  /** The closed box a body covers, used as an independent reading of a collision. */
  predicate InBox(p: Point, b: Body) {
    b.center.x - b.size.width / 2.0 <= p.x <= b.center.x + b.size.width / 2.0 &&
    b.center.y - b.size.height / 2.0 <= p.y <= b.center.y + b.size.height / 2.0
  }

  function Max(a: real, b: real): real {
    if a < b then b else a
  }

  /** Safe bodies and a body compared with itself never collide, whatever the geometry. */
  lemma SafeOrSameNeverCollides(b1: Body, b2: Body)
    requires b1.Safe() || b2.Safe() || b1.id == b2.id
    ensures !Colliding(b1, b2)
  {
  }

  /** Swapping the arguments swaps the left/right and the top/bottom tests. */
  lemma CollidingSymmetric(b1: Body, b2: Body)
    ensures Colliding(b1, b2) <==> Colliding(b2, b1)
  {
  }

  /** Two distinct, non-safe, well-formed bodies collide exactly when their
      closed boxes share a point: touching edges count as a collision. */
  lemma CollidingIffSharedPoint(b1: Body, b2: Body)
    requires b1.WellFormed() && b2.WellFormed()
    ensures Colliding(b1, b2) <==>
      !b1.Safe() && !b2.Safe() && b1.id != b2.id &&
      exists p :: InBox(p, b1) && InBox(p, b2)
  {
    if Colliding(b1, b2) {
      var p := Point(Max(b1.center.x - b1.size.width / 2.0, b2.center.x - b2.size.width / 2.0),
                     Max(b1.center.y - b1.size.height / 2.0, b2.center.y - b2.size.height / 2.0));
      assert InBox(p, b1) && InBox(p, b2);
    }
  }

  /** Two distinct non-safe bodies with the same centre and size collide. */
  lemma IdenticalBoxesCollide(b1: Body, b2: Body)
    requires !b1.Safe() && !b2.Safe() && b1.id != b2.id
    requires b1.WellFormed() && b1.center == b2.center && b1.size == b2.size
    ensures Colliding(b1, b2)
  {
  }

  /** Boxes whose right and left edges coincide still collide when their
      vertical extents overlap or only touch, so a shared corner is a collision. */
  lemma TouchingEdgesCollide(b1: Body, b2: Body)
    requires !b1.Safe() && !b2.Safe() && b1.id != b2.id
    requires b1.center.x + b1.size.width / 2.0 == b2.center.x - b2.size.width / 2.0
    requires b2.center.y - b2.size.height / 2.0 <= b1.center.y + b1.size.height / 2.0
    requires b1.center.y - b1.size.height / 2.0 <= b2.center.y + b2.size.height / 2.0
    requires b1.WellFormed() && b2.WellFormed()
    ensures Colliding(b1, b2)
  {
  }

  /** Disjoint projections on either axis mean no collision. */
  lemma SeparatedNeverCollide(b1: Body, b2: Body)
    requires b1.center.x + b1.size.width / 2.0 < b2.center.x - b2.size.width / 2.0 ||
             b2.center.y + b2.size.height / 2.0 < b1.center.y - b1.size.height / 2.0
    ensures !Colliding(b1, b2) && !Colliding(b2, b1)
  {
  }
}
