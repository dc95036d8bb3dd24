/** Sphere-sphere contact: overlapping bodies are pushed apart along the line of centres and
    their approaching speed is cancelled. */
module SphereContact {
  import opened Roots
  import opened Vectors

  const MOVABLE_MASS: real := 0.000000001
  const TOUCH_SLACK: real := 0.000001
  const COINCIDENT: real := 0.00000001
  const IMMOVABLE_PAIR: real := 0.000000000001

  const EAST: Vec := Vec(1.0, 0.0, 0.0)

  datatype Body = Body(p: Vec, v: Vec, r: real, m: real)

  datatype Contact = Contact(a: Body, b: Body, impulse: real)

  predicate Movable(body: Body) { body.m > MOVABLE_MASS }

  /** Inverse mass; a body too light to invert is treated as an immovable one. */
  function Inv(m: real): real {
    if m > MOVABLE_MASS then 1.0 / m else 0.0
  }

  function InvSum(c: Contact): real { Inv(c.a.m) + Inv(c.b.m) }

  function Radius(body: Body): real { Max(body.r, 0.0) }

  function MinDistance(c: Contact): real { Radius(c.a) + Radius(c.b) }

  function Apart(c: Contact): Vec { Sub(c.b.p, c.a.p) }

  function Distance(root: real -> real, c: Contact): real { root(Dot(Apart(c), Apart(c))) }

  /** Unit vector from A to B, or east when the centres all but coincide. */
  function Normal(root: real -> real, c: Contact): Vec {
    if Distance(root, c) < COINCIDENT then EAST else Over(Apart(c), Distance(root, c))
  }

  predicate Separated(root: real -> real, c: Contact) {
    Distance(root, c) > MinDistance(c) + TOUCH_SLACK
  }

  predicate Resolvable(root: real -> real, c: Contact) {
    !Separated(root, c) && InvSum(c) >= IMMOVABLE_PAIR
  }

  function Penetration(root: real -> real, c: Contact): real { MinDistance(c) - Distance(root, c) }

  function Share(amount: real, inv: real, sum: real): real
    requires sum > 0.0
  {
    amount * (inv / sum)
  }

  function Behind(u: Vec, k: real, n: Vec): Vec { Sub(u, Times(k, n)) }

  function Ahead(u: Vec, k: real, n: Vec): Vec { Add(u, Times(k, n)) }

  /** Both bodies moved along n in proportion to their inverse masses. */
  function Pushed(c: Contact, n: Vec, penetration: real): Contact
    requires InvSum(c) > 0.0
  {
    if penetration <= 0.0 then c
    else
      c.(a := c.a.(p := Behind(c.a.p, Share(penetration, Inv(c.a.m), InvSum(c)), n)),
         b := c.b.(p := Ahead(c.b.p, Share(penetration, Inv(c.b.m), InvSum(c)), n)))
  }

  function NormalSpeed(c: Contact, n: Vec): real { Dot(Sub(c.b.v, c.a.v), n) }

  function ApproachSpeed(c: Contact, n: Vec): real { Max(-NormalSpeed(c, n), 0.0) }

  function StoppingImpulse(c: Contact, n: Vec): real
    requires InvSum(c) > 0.0
  {
    -NormalSpeed(c, n) / InvSum(c)
  }

  function Struck(c: Contact, n: Vec, j: real): Contact {
    Contact(c.a.(v := Behind(c.a.v, Mul(j, Inv(c.a.m)), n)), c.b.(v := Ahead(c.b.v, Mul(j, Inv(c.b.m)), n)), j)
  }

  /** Equal and opposite impulses that stop the approach along n. */
  function Stopped(c: Contact, n: Vec): Contact
    requires InvSum(c) > 0.0
  {
    if NormalSpeed(c, n) >= 0.0 then c.(impulse := 0.0) else Struck(c, n, StoppingImpulse(c, n))
  }

  function Resolved(root: real -> real, c: Contact): Contact {
    if !Resolvable(root, c) then c.(impulse := 0.0) else Settled(c, Normal(root, c), Penetration(root, c))
  }

  function Settled(c: Contact, n: Vec, penetration: real): Contact
    requires InvSum(c) > 0.0
  {
    Stopped(Pushed(c, n, penetration), n)
  }

  method ResolveSphereContact(root: real -> real, before: Contact) returns (c: Contact)
    ensures c == Resolved(root, before)
  {
    c := before;
    var minD := Radius(c.a) + Radius(c.b);
    var d := Sub(c.b.p, c.a.p);
    var dist := root(Dot(d, d));
    if dist > minD + TOUCH_SLACK {
      c := c.(impulse := 0.0);
      return;
    }
    var n := EAST;
    if dist >= COINCIDENT {
      n := Over(d, dist);
    }
    var invA, invB := Inv(c.a.m), Inv(c.b.m);
    var invSum := invA + invB;
    if invSum < IMMOVABLE_PAIR {
      c := c.(impulse := 0.0);
      return;
    }
    var penetration := minD - dist;
    if penetration > 0.0 {
      c := c.(a := c.a.(p := Behind(c.a.p, Share(penetration, invA, invSum), n)));
      c := c.(b := c.b.(p := Ahead(c.b.p, Share(penetration, invB, invSum), n)));
    }
    assert c == Pushed(before, n, penetration);
    var vRel := NormalSpeed(c, n);
    if vRel >= 0.0 {
      c := c.(impulse := 0.0);
      return;
    }
    var j := StoppingImpulse(c, n);
    c := c.(impulse := j);
    c := c.(a := c.a.(v := Behind(c.a.v, Mul(j, invA), n)));
    c := c.(b := c.b.(v := Ahead(c.b.v, Mul(j, invB), n)));
  }

  // ---- the normal ----

  lemma RootIsUnique(root: real -> real, x: real, y: real)
    requires ExactRoot(root) && y >= 0.0 && x == y * y
    ensures root(x) == y
  {
    assert x >= 0.0;
    SquareOrder(root(x), y);
    SquareOrder(y, root(x));
  }

  lemma DistanceSquared(root: real -> real, c: Contact)
    requires ExactRoot(root)
    ensures var d := Distance(root, c); d >= 0.0 && d * d == Dot(Apart(c), Apart(c))
  {
  }

  lemma NormalIsUnit(root: real -> real, c: Contact)
    requires ExactRoot(root)
    ensures Dot(Normal(root, c), Normal(root, c)) == 1.0
  {
    DistanceSquared(root, c);
    if Distance(root, c) >= COINCIDENT {
      UnitOver(Apart(c), Distance(root, c));
    }
  }

  // ---- momentum and centre of mass ----

  lemma InvCancels(m: real)
    ensures Inv(m) >= 0.0
    ensures m > MOVABLE_MASS ==> m * Inv(m) == 1.0
  {
  }

  function Mix(ma: real, u: real, mb: real, w: real): real { ma * u + mb * w }

  function Weighted(ma: real, u: Vec, mb: real, w: Vec): Vec {
    Vec(Mix(ma, u.x, mb, w.x), Mix(ma, u.y, mb, w.y), Mix(ma, u.z, mb, w.z))
  }

  /** Opposite shifts along n, by ka and kb, move the weighted mean by k along n. */
  lemma WeightedShift(ma: real, mb: real, ka: real, kb: real, k: real, n: Vec, u: Vec, w: Vec)
    requires k == mb * kb - ma * ka
    ensures Weighted(ma, Behind(u, ka, n), mb, Ahead(w, kb, n)) == Add(Weighted(ma, u, mb, w), Times(k, n))
  {
  }

  lemma AddNothing(u: Vec, n: Vec)
    ensures Add(u, Times(0.0, n)) == u
  {
  }

  lemma AddSomething(u: Vec, k: real, n: Vec)
    requires k != 0.0 && Dot(n, n) == 1.0
    ensures Add(u, Times(k, n)) != u
  {
  }

  lemma ProductNonzero(a: real, b: real)
    ensures a != 0.0 && b != 0.0 ==> a * b != 0.0
  {
  }

  lemma EqualShares(ma: real, mb: real, ia: real, ib: real, amount: real, sum: real)
    requires ma * ia == 1.0 && mb * ib == 1.0 && sum > 0.0
    ensures ma * Share(amount, ia, sum) == mb * Share(amount, ib, sum)
    ensures ma * Mul(amount, ia) == mb * Mul(amount, ib)
  {
  }

  function Momentum(c: Contact): Vec { Weighted(c.a.m, c.a.v, c.b.m, c.b.v) }

  /** Total mass times the centre of mass. */
  function MassMoment(c: Contact): Vec { Weighted(c.a.m, c.a.p, c.b.m, c.b.p) }

  lemma ShareOfPush(penetration: real, inv: real, sum: real)
    requires sum > 0.0
    ensures Share(penetration, inv, sum) == (penetration / sum) * inv
  {
  }

  lemma PushKeepsCentre(c: Contact, n: Vec, penetration: real)
    requires Movable(c.a) && Movable(c.b) && InvSum(c) > 0.0
    ensures MassMoment(Pushed(c, n, penetration)) == MassMoment(c)
    ensures Momentum(Pushed(c, n, penetration)) == Momentum(c)
  {
    InvCancels(c.a.m);
    InvCancels(c.b.m);
    var sum := InvSum(c);
    EqualShares(c.a.m, c.b.m, Inv(c.a.m), Inv(c.b.m), penetration, sum);
    WeightedShift(c.a.m, c.b.m, Share(penetration, Inv(c.a.m), sum), Share(penetration, Inv(c.b.m), sum), 0.0,
                  n, c.a.p, c.b.p);
    AddNothing(MassMoment(c), n);
  }

  lemma StopKeepsMomentum(c: Contact, n: Vec)
    requires Movable(c.a) && Movable(c.b) && InvSum(c) > 0.0
    ensures Momentum(Stopped(c, n)) == Momentum(c) && MassMoment(Stopped(c, n)) == MassMoment(c)
  {
    InvCancels(c.a.m);
    InvCancels(c.b.m);
    var j := StoppingImpulse(c, n);
    EqualShares(c.a.m, c.b.m, Inv(c.a.m), Inv(c.b.m), j, InvSum(c));
    WeightedShift(c.a.m, c.b.m, Mul(j, Inv(c.a.m)), Mul(j, Inv(c.b.m)), 0.0, n, c.a.v, c.b.v);
    AddNothing(Momentum(c), n);
  }

  /** Two movable bodies keep their momentum and their centre of mass, whatever the branch. */
  lemma ResolveConserves(root: real -> real, c: Contact)
    requires Movable(c.a) && Movable(c.b)
    ensures Momentum(Resolved(root, c)) == Momentum(c) && MassMoment(Resolved(root, c)) == MassMoment(c)
  {
    if Resolvable(root, c) {
      var n, penetration := Normal(root, c), Penetration(root, c);
      PushKeepsCentre(c, n, penetration);
      StopKeepsMomentum(Pushed(c, n, penetration), n);
    }
  }

  lemma OneSidedStrike(c: Contact, n: Vec, j: real)
    requires Dot(n, n) == 1.0 && j != 0.0 && Movable(c.a) != Movable(c.b)
    ensures Momentum(Struck(c, n, j)) != Momentum(c)
  {
  }

  lemma PushKeepsMotion(c: Contact, n: Vec, penetration: real)
    requires InvSum(c) > 0.0
    ensures var pushed := Pushed(c, n, penetration);
            && pushed.a.v == c.a.v && pushed.b.v == c.b.v && pushed.a.m == c.a.m && pushed.b.m == c.b.m
            && NormalSpeed(pushed, n) == NormalSpeed(c, n) && InvSum(pushed) == InvSum(c)
            && Momentum(pushed) == Momentum(c) && KineticEnergy(pushed) == KineticEnergy(c)
  {
  }

  lemma OneSidedSettle(c: Contact, n: Vec, penetration: real)
    requires Dot(n, n) == 1.0 && InvSum(c) > 0.0 && Movable(c.a) != Movable(c.b)
    ensures Momentum(Settled(c, n, penetration)) == Momentum(c) <==> Settled(c, n, penetration).impulse == 0.0
  {
    PushKeepsMotion(c, n, penetration);
    var pushed := Pushed(c, n, penetration);
    if NormalSpeed(c, n) < 0.0 {
      OneSidedStrike(pushed, n, StoppingImpulse(pushed, n));
    }
  }

  lemma ImpulseIff(c: Contact, n: Vec, penetration: real)
    requires InvSum(c) > 0.0
    ensures Settled(c, n, penetration).impulse == 0.0 <==> NormalSpeed(c, n) >= 0.0
  {
    PushKeepsMotion(c, n, penetration);
    StoppedIff(Pushed(c, n, penetration), n);
  }

  lemma StoppedIff(c: Contact, n: Vec)
    requires InvSum(c) > 0.0
    ensures Stopped(c, n).impulse == 0.0 <==> NormalSpeed(c, n) >= 0.0
  {
    if NormalSpeed(c, n) < 0.0 {
      QuotientSign(-NormalSpeed(c, n), InvSum(c));
    }
  }

  lemma QuotientSign(x: real, y: real)
    requires x > 0.0 && y > 0.0
    ensures x / y > 0.0
  {
  }

  /** A body at or below the movable mass is struck without recoil, so a blow between it and a movable
      body creates momentum; every other resolution - no blow, two movable bodies, or none - keeps it. */
  lemma MomentumKeptIff(root: real -> real, c: Contact)
    requires ExactRoot(root)
    ensures Momentum(Resolved(root, c)) == Momentum(c)
       <==> Movable(c.a) == Movable(c.b) || !Resolvable(root, c) || NormalSpeed(c, Normal(root, c)) >= 0.0
  {
    if Movable(c.a) && Movable(c.b) {
      ResolveConserves(root, c);
    } else if Resolvable(root, c) {
      var n, penetration := Normal(root, c), Penetration(root, c);
      NormalIsUnit(root, c);
      OneSidedSettle(c, n, penetration);
      ImpulseIff(c, n, penetration);
    }
  }

  // ---- separation ----

  lemma PushOpensGap(c: Contact, n: Vec, penetration: real)
    requires InvSum(c) > 0.0 && penetration > 0.0
    ensures Apart(Pushed(c, n, penetration)) == Add(Apart(c), Times(penetration, n))
  {
    var ka, kb := Share(penetration, Inv(c.a.m), InvSum(c)), Share(penetration, Inv(c.b.m), InvSum(c));
    assert ka + kb == penetration by {
      ShareOfPush(penetration, Inv(c.a.m), InvSum(c));
      ShareOfPush(penetration, Inv(c.b.m), InvSum(c));
      assert (penetration / InvSum(c)) * Inv(c.a.m) + (penetration / InvSum(c)) * Inv(c.b.m)
          == (penetration / InvSum(c)) * InvSum(c);
    }
    SplitTimes(ka, kb, penetration, n);
  }

  lemma SplitTimes(ka: real, kb: real, k: real, n: Vec)
    requires ka + kb == k
    ensures Times(k, n) == Add(Times(ka, n), Times(kb, n))
  {
  }

  /** Centres further apart than `COINCIDENT` end exactly one contact distance apart. */
  lemma PushSeparates(root: real -> real, c: Contact)
    requires ExactRoot(root) && InvSum(c) > 0.0
    requires Penetration(root, c) > 0.0 && Distance(root, c) >= COINCIDENT
    ensures Distance(root, Pushed(c, Normal(root, c), Penetration(root, c))) == MinDistance(c)
    ensures Apart(Pushed(c, Normal(root, c), Penetration(root, c))) == Times(MinDistance(c), Normal(root, c))
  {
    var n, d, minD := Normal(root, c), Distance(root, c), MinDistance(c);
    PushOpensGap(c, n, minD - d);
    OverIsTimes(Apart(c), d);
    SplitTimes(d, minD - d, minD, n);
    NormalIsUnit(root, c);
    LengthOfMultiple(root, minD, n);
  }

  lemma LengthOfMultiple(root: real -> real, k: real, n: Vec)
    requires ExactRoot(root) && k >= 0.0 && Dot(n, n) == 1.0
    ensures root(Dot(Times(k, n), Times(k, n))) == k
  {
    DotTimes(k, n, Times(k, n));
    DotTimes(k, n, n);
    RootIsUnique(root, Dot(Times(k, n), Times(k, n)), k);
  }

  lemma CoincidentGap(d: Vec, dist: real, penetration: real)
    requires dist >= 0.0 && dist * dist == Dot(d, d) && penetration >= dist
    ensures var e := Add(d, Times(penetration, EAST)); Dot(e, e) >= (penetration - dist) * (penetration - dist)
  {
    DotSelf(d);
    var a := Abs(d.x);
    assert a * a == d.x * d.x;
    SquareOrder(a, dist);
    Scale(-dist, d.x, penetration);
    var e := Add(d, Times(penetration, EAST));
    assert e == Vec(d.x + penetration, d.y, d.z);
    CoincidentSquare(d.x, d.y, d.z, penetration, dist);
  }

  lemma CoincidentSquare(x: real, y: real, z: real, p: real, dist: real)
    requires dist * dist == x * x + y * y + z * z && -dist * p <= x * p
    ensures (x + p) * (x + p) + y * y + z * z >= (p - dist) * (p - dist)
  {
  }

  lemma CoincidentDistance(root: real -> real, d: Vec, dist: real, penetration: real)
    requires ExactRoot(root) && dist >= 0.0 && dist * dist == Dot(d, d)
    ensures var e := Add(d, Times(penetration, EAST)); root(Dot(e, e)) >= penetration - dist
  {
    var e := Add(d, Times(penetration, EAST));
    DotSelf(e);
    if penetration >= dist {
      CoincidentGap(d, dist, penetration);
      SquareOrder(penetration - dist, root(Dot(e, e)));
    }
  }

  /** Centres A to B that lie due east, as far as they lie apart at all. */
  predicate Lined(root: real -> real, c: Contact) { Apart(c) == Times(Distance(root, c), EAST) }

  lemma CoincidentReach(d: Vec, dist: real, p: real)
    requires dist >= 0.0 && dist * dist == Dot(d, d) && p > 0.0
    ensures var e := Add(d, Times(p, EAST));
            && Dot(e, e) <= (dist + p) * (dist + p)
            && (Dot(e, e) == (dist + p) * (dist + p) <==> d == Times(dist, EAST))
  {
    DotSelf(d);
    var a := Abs(d.x);
    assert a * a == d.x * d.x;
    SquareOrder(a, dist);
    var e := Add(d, Times(p, EAST));
    assert e == Vec(d.x + p, d.y, d.z);
    ReachGap(d.x, d.y, d.z, p, dist);
    GapVanishes(d.x, d.y, d.z, p, dist);
    assert Times(dist, EAST) == Vec(dist, 0.0, 0.0);
  }

  lemma ReachGap(x: real, y: real, z: real, p: real, dist: real)
    requires dist * dist == x * x + y * y + z * z
    ensures (dist + p) * (dist + p) - ((x + p) * (x + p) + y * y + z * z) == 2.0 * (p * (dist - x))
  {
  }

  lemma GapVanishes(x: real, y: real, z: real, p: real, dist: real)
    requires dist * dist == x * x + y * y + z * z && x <= dist && p > 0.0
    ensures p * (dist - x) >= 0.0
    ensures p * (dist - x) == 0.0 <==> x == dist && y == 0.0 && z == 0.0
  {
    var gap := dist - x;
    ProductSign(p, gap);
    if gap == 0.0 {
      SquaresVanish(y, z);
    }
  }

  lemma SquaresVanish(y: real, z: real)
    requires y * y + z * z == 0.0
    ensures y == 0.0 && z == 0.0
  {
    if y != 0.0 {
      SquareGrows(Abs(y), 0.0);
    } else if z != 0.0 {
      SquareGrows(Abs(z), 0.0);
    }
  }

  lemma CoincidentDistanceIff(root: real -> real, d: Vec, dist: real, p: real)
    requires ExactRoot(root) && dist >= 0.0 && dist * dist == Dot(d, d) && p > 0.0
    ensures var e := Add(d, Times(p, EAST));
            root(Dot(e, e)) <= dist + p && (root(Dot(e, e)) == dist + p <==> d == Times(dist, EAST))
  {
    var e := Add(d, Times(p, EAST));
    CoincidentReach(d, dist, p);
    DotSelf(e);
    SquareOrder(root(Dot(e, e)), dist + p);
    if d == Times(dist, EAST) {
      RootIsUnique(root, Dot(e, e), dist + p);
    }
  }

  /** All but coincident centres end within two `COINCIDENT` of the contact distance, and exactly there
      when they were lined up with the push. */
  lemma PushSeparatesCoincident(root: real -> real, c: Contact)
    requires ExactRoot(root) && InvSum(c) > 0.0
    requires Penetration(root, c) > 0.0 && Distance(root, c) < COINCIDENT
    ensures var after := Distance(root, Pushed(c, Normal(root, c), Penetration(root, c)));
            && MinDistance(c) - 2.0 * Distance(root, c) <= after <= MinDistance(c)
            && (after == MinDistance(c) <==> Lined(root, c))
  {
    PushOpensGap(c, Normal(root, c), Penetration(root, c));
    DistanceSquared(root, c);
    CoincidentDistanceIff(root, Apart(c), Distance(root, c), Penetration(root, c));
    CoincidentDistance(root, Apart(c), Distance(root, c), Penetration(root, c));
  }

  lemma StopKeepsPlace(root: real -> real, c: Contact, n: Vec)
    requires InvSum(c) > 0.0
    ensures Distance(root, Stopped(c, n)) == Distance(root, c)
  {
  }

  /** Where a resolvable pair ends: untouched, exactly in contact, or - when the centres all but
      coincide - below contact by at most twice their distance, and in contact iff lined up. */
  lemma ResolveSeparates(root: real -> real, c: Contact)
    requires ExactRoot(root) && Resolvable(root, c)
    ensures MinDistance(Resolved(root, c)) == MinDistance(c)
    ensures Distance(root, c) >= MinDistance(c) ==> Distance(root, Resolved(root, c)) == Distance(root, c)
    ensures COINCIDENT <= Distance(root, c) < MinDistance(c) ==> Distance(root, Resolved(root, c)) == MinDistance(c)
    ensures Distance(root, c) < COINCIDENT && Distance(root, c) < MinDistance(c) ==>
              && MinDistance(c) - 2.0 * Distance(root, c) <= Distance(root, Resolved(root, c)) <= MinDistance(c)
              && (Distance(root, Resolved(root, c)) == MinDistance(c) <==> Lined(root, c))
    ensures Distance(root, Resolved(root, c)) >= MinDistance(c) - 2.0 * COINCIDENT
  {
    var n, penetration := Normal(root, c), Penetration(root, c);
    StopKeepsPlace(root, Pushed(c, n, penetration), n);
    if penetration > 0.0 {
      if Distance(root, c) >= COINCIDENT {
        PushSeparates(root, c);
      } else {
        PushSeparatesCoincident(root, c);
      }
    }
  }

  // ---- speed and energy ----

  lemma ShiftedSpeed(v: Vec, k: real, n: Vec)
    requires Dot(n, n) == 1.0
    ensures Dot(Ahead(v, k, n), n) == Dot(v, n) + k && Dot(Behind(v, k, n), n) == Dot(v, n) - k
  {
    DotAdd(v, Times(k, n), n);
    DotSub(v, Times(k, n), n);
    DotTimes(k, n, n);
  }

  lemma ImpulsesAdd(j: real, ia: real, ib: real)
    ensures Mul(j, ia) + Mul(j, ib) == Mul(j, ia + ib)
  {
  }

  lemma StopChangesSpeed(c: Contact, n: Vec, j: real)
    requires Dot(n, n) == 1.0
    ensures NormalSpeed(Struck(c, n, j), n) == NormalSpeed(c, n) + Mul(j, InvSum(c))
  {
    var ka, kb := Mul(j, Inv(c.a.m)), Mul(j, Inv(c.b.m));
    DotSub(Ahead(c.b.v, kb, n), Behind(c.a.v, ka, n), n);
    ShiftedSpeed(c.b.v, kb, n);
    ShiftedSpeed(c.a.v, ka, n);
    DotSub(c.b.v, c.a.v, n);
    ImpulsesAdd(j, Inv(c.a.m), Inv(c.b.m));
  }

  lemma StopStops(c: Contact, n: Vec)
    requires Dot(n, n) == 1.0 && InvSum(c) > 0.0
    ensures NormalSpeed(Stopped(c, n), n) == Max(NormalSpeed(c, n), 0.0)
    ensures Mul(Stopped(c, n).impulse, InvSum(c)) == ApproachSpeed(c, n)
  {
    var j := StoppingImpulse(c, n);
    QuotientTimes(-NormalSpeed(c, n), InvSum(c));
    StopChangesSpeed(c, n, j);
    StruckIsStopped(c, n, j);
  }

  lemma QuotientTimes(x: real, y: real)
    requires y != 0.0
    ensures Mul(x / y, y) == x
  {
  }

  lemma StruckIsStopped(c: Contact, n: Vec, j: real)
    requires InvSum(c) > 0.0 && j == StoppingImpulse(c, n)
    ensures Stopped(c, n) == if NormalSpeed(c, n) < 0.0 then Struck(c, n, j) else c.(impulse := 0.0)
  {
  }

  lemma PushThenStopStops(c: Contact, n: Vec, penetration: real)
    requires Dot(n, n) == 1.0 && InvSum(c) > 0.0
    ensures var after := Settled(c, n, penetration);
            && NormalSpeed(after, n) == Max(NormalSpeed(c, n), 0.0)
            && Mul(after.impulse, InvSum(c)) == ApproachSpeed(c, n)
  {
    PushKeepsMotion(c, n, penetration);
    StopStops(Pushed(c, n, penetration), n);
  }

  /** An approach is stopped dead along the normal; anything else is left as it was. */
  lemma ResolveStopsApproach(root: real -> real, c: Contact)
    requires ExactRoot(root) && Resolvable(root, c)
    ensures NormalSpeed(Resolved(root, c), Normal(root, c)) == Max(NormalSpeed(c, Normal(root, c)), 0.0)
    ensures Mul(Resolved(root, c).impulse, InvSum(c)) == ApproachSpeed(c, Normal(root, c))
  {
    NormalIsUnit(root, c);
    PushThenStopStops(c, Normal(root, c), Penetration(root, c));
  }

  function KineticEnergy(c: Contact): real {
    BodyEnergy(c.a.m, c.a.v) + BodyEnergy(c.b.m, c.b.v)
  }

  function EnergyLost(before: Contact, after: Contact): real { KineticEnergy(before) - KineticEnergy(after) }

  lemma ShiftedSquare(v: Vec, k: real, n: Vec)
    requires Dot(n, n) == 1.0
    ensures Dot(Ahead(v, k, n), Ahead(v, k, n)) == Dot(v, v) + 2.0 * k * Dot(v, n) + k * k
    ensures Dot(Behind(v, k, n), Behind(v, k, n)) == Dot(v, v) - 2.0 * k * Dot(v, n) + k * k
  {
  }

  function BodyEnergy(m: real, v: Vec): real { 0.5 * (m * Dot(v, v)) }

  lemma EnergyAhead(body: Body, n: Vec, j: real, inv: real)
    requires Dot(n, n) == 1.0 && body.m * inv == 1.0
    ensures BodyEnergy(body.m, Ahead(body.v, Mul(j, inv), n))
         == BodyEnergy(body.m, body.v) + j * Dot(body.v, n) + 0.5 * (j * (j * inv))
  {
  }

  lemma EnergyBehind(body: Body, n: Vec, j: real, inv: real)
    requires Dot(n, n) == 1.0 && body.m * inv == 1.0
    ensures BodyEnergy(body.m, Behind(body.v, Mul(j, inv), n))
         == BodyEnergy(body.m, body.v) - j * Dot(body.v, n) + 0.5 * (j * (j * inv))
  {
  }

  lemma EnergyOfImpulse(c: Contact, n: Vec, j: real)
    requires Movable(c.a) && Movable(c.b) && Dot(n, n) == 1.0
    ensures KineticEnergy(Struck(c, n, j)) == KineticEnergy(c) + j * NormalSpeed(c, n) + 0.5 * (j * (j * InvSum(c)))
  {
    var ia, ib := Inv(c.a.m), Inv(c.b.m);
    InvCancels(c.a.m);
    InvCancels(c.b.m);
    EnergyBehind(c.a, n, j, ia);
    EnergyAhead(c.b, n, j, ib);
    DotSub(c.b.v, c.a.v, n);
    SumOfShares(j, ia, ib, Dot(c.a.v, n), Dot(c.b.v, n));
  }

  lemma SumOfShares(j: real, ia: real, ib: real, va: real, vb: real)
    ensures j * (j * ia) + j * (j * ib) == j * (j * (ia + ib))
    ensures j * (vb - va) == j * vb - j * va
  {
  }

  lemma StopLosesEnergy(c: Contact, n: Vec)
    requires Dot(n, n) == 1.0 && InvSum(c) > 0.0 && Movable(c.a) && Movable(c.b)
    ensures EnergyLost(c, Stopped(c, n)) == EnergyOfApproach(ApproachSpeed(c, n), InvSum(c))
  {
    var v := NormalSpeed(c, n);
    if v < 0.0 {
      EnergyOfImpulse(c, n, StoppingImpulse(c, n));
      LostEnergy(v, InvSum(c));
    }
  }

  function EnergyOfApproach(speed: real, invSum: real): (r: real)
    requires invSum > 0.0
    ensures r >= 0.0
  {
    assert speed * speed >= 0.0;
    speed * speed / (2.0 * invSum)
  }

  lemma LostEnergy(v: real, s: real)
    requires s > 0.0 && v < 0.0
    ensures var j := -v / s; j * v + 0.5 * (j * (j * s)) == -EnergyOfApproach(-v, s)
  {
  }

  lemma OverUndoesTimes(k: real, n: Vec)
    requires k > 0.0
    ensures Over(Times(k, n), k) == n
  {
  }

  /** Whether one resolution leaves the pair where the next would. */
  predicate SettlesAtOnce(root: real -> real, c: Contact) {
    !Resolvable(root, c) || Distance(root, c) >= COINCIDENT || Distance(root, c) >= MinDistance(c) || Lined(root, c)
  }

  lemma ResolveKeepsNormal(root: real -> real, c: Contact)
    requires ExactRoot(root) && Resolvable(root, c) && SettlesAtOnce(root, c)
    ensures Normal(root, Resolved(root, c)) == Normal(root, c)
    ensures Penetration(root, Resolved(root, c)) <= 0.0
  {
    ResolveSeparates(root, c);
    var after, n, minD := Resolved(root, c), Normal(root, c), MinDistance(c);
    assert Apart(after) == Apart(Pushed(c, n, Penetration(root, c)));
    if Penetration(root, c) > 0.0 {
      if Distance(root, c) >= COINCIDENT {
        PushSeparates(root, c);
      } else {
        PushOpensGap(c, n, Penetration(root, c));
        SplitTimes(Distance(root, c), Penetration(root, c), minD, n);
      }
      assert Apart(after) == Times(minD, n);
      if minD >= COINCIDENT {
        OverUndoesTimes(minD, n);
      }
    }
  }

  lemma SettledOnce(root: real -> real, c: Contact)
    requires ExactRoot(root) && Resolvable(root, c) && SettlesAtOnce(root, c)
    ensures Resolved(root, Resolved(root, c)) == Resolved(root, c).(impulse := 0.0)
  {
    var after := Resolved(root, c);
    ResolveSeparates(root, c);
    ResolveKeepsNormal(root, c);
    ResolveStopsApproach(root, c);
    assert InvSum(after) == InvSum(c);
    assert Pushed(after, Normal(root, c), Penetration(root, after)) == after;
  }

  lemma PushMoves(c: Contact, n: Vec, penetration: real)
    requires Dot(n, n) == 1.0 && InvSum(c) > 0.0 && penetration > 0.0
    ensures Apart(Settled(c, n, penetration)) != Apart(c)
  {
    PushOpensGap(c, n, penetration);
    AddSomething(Apart(c), penetration, n);
  }

  /** A resolution that still leaves an overlap is followed by another push. */
  lemma StillOverlaps(root: real -> real, c: Contact)
    requires ExactRoot(root) && Resolvable(root, c) && Penetration(root, c) > 0.0
    ensures Apart(Resolved(root, c)) != Apart(c)
  {
    NormalIsUnit(root, c);
    PushMoves(c, Normal(root, c), Penetration(root, c));
  }

  /** Resolving a resolved pair only forgets the impulse, unless overlapping centres all but coincided
      without lying in line with the push: then it pushes again. */
  lemma ResolveIsIdempotentIff(root: real -> real, c: Contact)
    requires ExactRoot(root)
    ensures Resolved(root, Resolved(root, c)) == Resolved(root, c).(impulse := 0.0) <==> SettlesAtOnce(root, c)
  {
    var after := Resolved(root, c);
    if !Resolvable(root, c) {
      assert Apart(after) == Apart(c);
    } else if SettlesAtOnce(root, c) {
      SettledOnce(root, c);
    } else {
      ResolveSeparates(root, c);
      assert InvSum(after) == InvSum(c);
      StillOverlaps(root, after);
    }
  }

  // ---- blows with an immovable body ----

  /** A body struck by an immovable one takes over the other's speed along the normal. */
  lemma OneSidedSpeed(c: Contact, n: Vec)
    requires Dot(n, n) == 1.0 && InvSum(c) > 0.0 && Movable(c.a) != Movable(c.b) && NormalSpeed(c, n) < 0.0
    ensures var after := Stopped(c, n);
            if Movable(c.b) then after.a.v == c.a.v && after.b.v == Ahead(c.b.v, -NormalSpeed(c, n), n)
            else after.b.v == c.b.v && after.a.v == Behind(c.a.v, -NormalSpeed(c, n), n)
  {
    var j := StoppingImpulse(c, n);
    assert Mul(j, InvSum(c)) == -NormalSpeed(c, n);
    if Movable(c.b) {
      assert Mul(j, Inv(c.a.m)) == 0.0 && Mul(j, Inv(c.b.m)) == -NormalSpeed(c, n);
      assert Times(0.0, n) == ZERO;
    } else {
      assert Mul(j, Inv(c.b.m)) == 0.0 && Mul(j, Inv(c.a.m)) == -NormalSpeed(c, n);
      assert Times(0.0, n) == ZERO;
    }
  }

  lemma SpeedDifference(u: real, v: real)
    ensures v * v - u * u == (v - u) * (v + u)
  {
  }

  /** Changing a velocity by w - u along n, from u, changes squared length by w^2 - u^2. */
  lemma NewNormalSpeed(v: Vec, n: Vec, u: real, w: real)
    requires Dot(n, n) == 1.0 && u == Dot(v, n)
    ensures Dot(Ahead(v, w - u, n), Ahead(v, w - u, n)) == Dot(v, v) + (w * w - u * u)
  {
    ShiftedSquare(v, w - u, n);
    SpeedDifference(u, w);
    assert 2.0 * (w - u) * u + (w - u) * (w - u) == (w - u) * (w + u);
  }

  /** What a body of mass m loses when its normal speed u becomes w. */
  function SpeedLoss(m: real, u: real, w: real): real { -(0.5 * (m * (w * w - u * u))) }

  lemma SpeedTaken(m: real, v: Vec, n: Vec, u: real, w: real)
    requires Dot(n, n) == 1.0 && u == Dot(v, n)
    ensures BodyEnergy(m, Ahead(v, w - u, n)) == BodyEnergy(m, v) - SpeedLoss(m, u, w)
  {
    NewNormalSpeed(v, n, u, w);
    GainedEnergy(m, v, Ahead(v, w - u, n), w * w - u * u);
  }

  lemma GainedEnergy(m: real, v: Vec, after: Vec, gain: real)
    requires Dot(after, after) == Dot(v, v) + gain
    ensures BodyEnergy(m, after) == BodyEnergy(m, v) + 0.5 * (m * gain)
  {
    var before := Dot(v, v);
    assert m * (before + gain) == m * before + m * gain;
  }

  lemma BehindIsAhead(v: Vec, k: real, n: Vec)
    ensures Behind(v, k, n) == Ahead(v, -k, n)
  {
  }

  lemma LossOfB(c: Contact, after: Contact, n: Vec, ua: real, ub: real)
    requires Dot(n, n) == 1.0 && ub == Dot(c.b.v, n) && after.a.m == c.a.m && after.b.m == c.b.m
    requires after.a.v == c.a.v && after.b.v == Ahead(c.b.v, ua - ub, n)
    ensures EnergyLost(c, after) == SpeedLoss(c.b.m, ub, ua)
  {
    SpeedTaken(c.b.m, c.b.v, n, ub, ua);
  }

  lemma LossOfA(c: Contact, after: Contact, n: Vec, ua: real, ub: real)
    requires Dot(n, n) == 1.0 && ua == Dot(c.a.v, n) && after.a.m == c.a.m && after.b.m == c.b.m
    requires after.b.v == c.b.v && after.a.v == Ahead(c.a.v, ub - ua, n)
    ensures EnergyLost(c, after) == SpeedLoss(c.a.m, ua, ub)
  {
    SpeedTaken(c.a.m, c.a.v, n, ua, ub);
  }

  /** The struck body of a one-sided blow, with its normal speed and the other's. */
  lemma OneSidedLoss(c: Contact, n: Vec, ua: real, ub: real)
    requires Dot(n, n) == 1.0 && InvSum(c) > 0.0 && Movable(c.a) != Movable(c.b) && NormalSpeed(c, n) < 0.0
    requires ua == Dot(c.a.v, n) && ub == Dot(c.b.v, n)
    ensures EnergyLost(c, Stopped(c, n)) == if Movable(c.b) then SpeedLoss(c.b.m, ub, ua) else SpeedLoss(c.a.m, ua, ub)
  {
    var speed := NormalSpeed(c, n);
    OneSidedSpeed(c, n);
    DotSub(c.b.v, c.a.v, n);
    assert speed == ub - ua;
    if Movable(c.b) {
      LossOfB(c, Stopped(c, n), n, ua, ub);
    } else {
      BehindIsAhead(c.a.v, -speed, n);
      LossOfA(c, Stopped(c, n), n, ua, ub);
    }
  }

  /** Energy taken out of a blow: that of the approach over both inverse masses, v^2 / 2 over their sum;
      when one body is immovable, what the other loses in taking over its speed - or gains. */
  function BlowLoss(c: Contact, n: Vec): real
    requires InvSum(c) > 0.0
  {
    var ua, ub := Dot(c.a.v, n), Dot(c.b.v, n);
    if NormalSpeed(c, n) >= 0.0 then 0.0
    else if Movable(c.a) && Movable(c.b) then EnergyOfApproach(ApproachSpeed(c, n), InvSum(c))
    else if Movable(c.b) then SpeedLoss(c.b.m, ub, ua)
    else SpeedLoss(c.a.m, ua, ub)
  }

  lemma StopLosesExactly(c: Contact, n: Vec)
    requires Dot(n, n) == 1.0 && InvSum(c) > 0.0
    ensures EnergyLost(c, Stopped(c, n)) == BlowLoss(c, n)
  {
    if NormalSpeed(c, n) < 0.0 {
      if Movable(c.a) && Movable(c.b) {
        StopLosesEnergy(c, n);
      } else {
        assert Movable(c.a) != Movable(c.b);
        OneSidedLoss(c, n, Dot(c.a.v, n), Dot(c.b.v, n));
      }
    }
  }

  /** For all masses: the energy a resolution takes out, exactly; never negative between movable bodies. */
  lemma ResolveLosesEnergy(root: real -> real, c: Contact)
    requires ExactRoot(root) && Resolvable(root, c)
    ensures EnergyLost(c, Resolved(root, c)) == BlowLoss(c, Normal(root, c))
    ensures Movable(c.a) && Movable(c.b) ==> EnergyLost(c, Resolved(root, c)) >= 0.0
  {
    NormalIsUnit(root, c);
    SettlingLoses(c, Normal(root, c), Penetration(root, c));
    if Movable(c.a) && Movable(c.b) {
      BlowLossIsLoss(c, Normal(root, c));
    }
  }

  lemma BlowLossIsLoss(c: Contact, n: Vec)
    requires InvSum(c) > 0.0 && Movable(c.a) && Movable(c.b)
    ensures BlowLoss(c, n) >= 0.0
  {
  }

  lemma SettlingLoses(c: Contact, n: Vec, penetration: real)
    requires Dot(n, n) == 1.0 && InvSum(c) > 0.0
    ensures EnergyLost(c, Settled(c, n, penetration)) == BlowLoss(c, n)
  {
    PushKeepsMotion(c, n, penetration);
    StopLosesExactly(Pushed(c, n, penetration), n);
  }

  lemma EnergyFollowsSpeed(m: real, v: Vec, w: Vec)
    requires m > 0.0
    ensures BodyEnergy(m, w) <= BodyEnergy(m, v) <==> Dot(w, w) <= Dot(v, v)
  {
    var old2, new2 := Dot(v, v), Dot(w, w);
    if new2 <= old2 {
      Scale(new2, old2, m);
    } else {
      ScaleStrict(old2, new2, m);
    }
  }

  lemma AbsSquares(u: real, w: real)
    ensures Abs(w) <= Abs(u) <==> w * w <= u * u
  {
    var a, b := Abs(u), Abs(w);
    assert a * a == u * u && b * b == w * w;
    if b > a {
      SquareGrows(b, a);
    } else if b < a {
      SquareGrows(a, b);
    }
  }

  /** A velocity whose normal part u becomes w carries no more energy iff |w| <= |u|. */
  lemma EnergyOfNewSpeed(m: real, v: Vec, n: Vec, u: real, w: real)
    requires m > 0.0 && Dot(n, n) == 1.0 && u == Dot(v, n)
    ensures BodyEnergy(m, Ahead(v, w - u, n)) <= BodyEnergy(m, v) <==> Abs(w) <= Abs(u)
  {
    NewNormalSpeed(v, n, u, w);
    EnergyFollowsSpeed(m, v, Ahead(v, w - u, n));
    AbsSquares(u, w);
  }

  /** Of a pair with one movable body, the other is no faster along the normal. */
  predicate NotOutrun(c: Contact, n: Vec) {
    if Movable(c.b) then Abs(Dot(c.a.v, n)) <= Abs(Dot(c.b.v, n)) else Abs(Dot(c.b.v, n)) <= Abs(Dot(c.a.v, n))
  }

  lemma OneSidedEnergy(c: Contact, n: Vec)
    requires Dot(n, n) == 1.0 && InvSum(c) > 0.0 && Movable(c.a) != Movable(c.b) && NormalSpeed(c, n) < 0.0
    ensures KineticEnergy(Stopped(c, n)) <= KineticEnergy(c) <==> NotOutrun(c, n)
  {
    var ua, ub, v := Dot(c.a.v, n), Dot(c.b.v, n), NormalSpeed(c, n);
    DotSub(c.b.v, c.a.v, n);
    OneSidedSpeed(c, n);
    if Movable(c.b) {
      EnergyOfNewSpeed(c.b.m, c.b.v, n, ub, ua);
    } else {
      BehindIsAhead(c.a.v, -v, n);
      EnergyOfNewSpeed(c.a.m, c.a.v, n, ua, ub);
    }
  }

  lemma SettledEnergyIff(c: Contact, n: Vec, penetration: real)
    requires Dot(n, n) == 1.0 && InvSum(c) > 0.0
    ensures KineticEnergy(Settled(c, n, penetration)) <= KineticEnergy(c)
       <==> Movable(c.a) == Movable(c.b) || NormalSpeed(c, n) >= 0.0 || NotOutrun(c, n)
  {
    PushKeepsMotion(c, n, penetration);
    var pushed := Pushed(c, n, penetration);
    if Movable(c.a) && Movable(c.b) {
      StopLosesEnergy(pushed, n);
    } else if NormalSpeed(c, n) < 0.0 {
      OneSidedEnergy(pushed, n);
    }
  }

  /** For all masses: kinetic energy does not rise, unless an immovable body strikes a movable one
      and is the faster of the two along the normal. */
  lemma EnergyNotRaisedIff(root: real -> real, c: Contact)
    requires ExactRoot(root)
    ensures KineticEnergy(Resolved(root, c)) <= KineticEnergy(c)
       <==> || Movable(c.a) == Movable(c.b) || !Resolvable(root, c)
            || NormalSpeed(c, Normal(root, c)) >= 0.0 || NotOutrun(c, Normal(root, c))
  {
    if Resolvable(root, c) {
      NormalIsUnit(root, c);
      SettledEnergyIff(c, Normal(root, c), Penetration(root, c));
    }
  }

  /** A massless sphere running into a kilogram at rest, along any unit vector. */
  predicate LightBlow(c: Contact, n: Vec) {
    Dot(n, n) == 1.0 && c.a == Body(ZERO, n, 1.0, 0.0) && c.b == Body(n, ZERO, 1.0, 1.0)
  }

  lemma LightBlowIsResolved(root: real -> real, c: Contact, n: Vec)
    requires ExactRoot(root) && LightBlow(c, n)
    ensures Resolved(root, c) == Settled(c, n, 1.0)
  {
    assert Apart(c) == n;
    RootIsUnique(root, Dot(n, n), 1.0);
    assert Over(n, 1.0) == n;
  }

  lemma LightBlowSettles(c: Contact, n: Vec)
    requires LightBlow(c, n)
    ensures InvSum(c) > 0.0
    ensures var after := Settled(c, n, 1.0); after.a.v == n && after.b.v == n && after.a.m == 0.0 && after.b.m == 1.0
  {
    PushKeepsMotion(c, n, 1.0);
    var pushed := Pushed(c, n, 1.0);
    DotSub(ZERO, n, n);
    assert Dot(ZERO, n) == 0.0;
    assert NormalSpeed(pushed, n) == -1.0;
    OneSidedSpeed(pushed, n);
    assert Ahead(ZERO, 1.0, n) == n;
  }

  lemma UnitMotion(n: Vec, e: real)
    requires e == Dot(n, n)
    ensures Weighted(0.0, n, 1.0, ZERO) == ZERO && Weighted(0.0, n, 1.0, n) == n
    ensures BodyEnergy(0.0, n) == 0.0 && BodyEnergy(1.0, n) == 0.5 * e
  {
  }

  lemma RestEnergy(m: real)
    ensures BodyEnergy(m, ZERO) == 0.0
  {
    assert Dot(ZERO, ZERO) == 0.0;
  }

  lemma LightBlowStarts(c: Contact, n: Vec)
    requires LightBlow(c, n)
    ensures Momentum(c) == ZERO && KineticEnergy(c) == 0.0
  {
    UnitMotion(n, 1.0);
    RestEnergy(1.0);
  }

  lemma LightBlowEnds(after: Contact, n: Vec)
    requires Dot(n, n) == 1.0 && after.a.v == n && after.b.v == n && after.a.m == 0.0 && after.b.m == 1.0
    ensures Momentum(after) == n && KineticEnergy(after) == 0.5
  {
    UnitMotion(n, 1.0);
  }

  /** Momentum and energy come from nowhere. */
  lemma LightBlowCreatesMotion(root: real -> real, c: Contact, n: Vec)
    requires ExactRoot(root) && LightBlow(c, n)
    ensures Momentum(c) == ZERO && Momentum(Resolved(root, c)) == n
    ensures KineticEnergy(c) == 0.0 && KineticEnergy(Resolved(root, c)) == 0.5
  {
    LightBlowIsResolved(root, c, n);
    LightBlowSettles(c, n);
    LightBlowStarts(c, n);
    LightBlowEnds(Settled(c, n, 1.0), n);
  }

  // ---- the checked invariants ----

  function CentreOfMass(c: Contact): Vec {
    if c.a.m + c.b.m <= 0.0 then ZERO else Over(MassMoment(c), c.a.m + c.b.m)
  }

  /** What the repository's own checker demands of a resolution. */
  predicate ContactInvariants(root: real -> real, before: Contact, after: Contact) {
    && after.impulse >= 0.0
    && !(Distance(root, before) > MinDistance(before) + TOUCH_SLACK && after.impulse != 0.0)
    && Distance(root, after) + 0.0001 >= MinDistance(after)
    && (before.a.m > 0.000001 && before.b.m > 0.000001 ==>
          var com0, com1 := CentreOfMass(before), CentreOfMass(after);
          Abs(com0.x - com1.x) <= 0.0001 && Abs(com0.y - com1.y) <= 0.0001 && Abs(com0.z - com1.z) <= 0.0001)
  }

  /** They hold exactly when the pair can be moved at all or does not overlap deeply. */
  lemma InvariantsHoldIff(root: real -> real, c: Contact)
    requires ExactRoot(root)
    ensures ContactInvariants(root, c, Resolved(root, c))
       <==> InvSum(c) >= IMMOVABLE_PAIR || Distance(root, c) + 0.0001 >= MinDistance(c)
  {
    var after := Resolved(root, c);
    if Resolvable(root, c) {
      ResolveSeparates(root, c);
      ResolveStopsApproach(root, c);
      assert after.impulse >= 0.0;
    } else {
      assert Apart(after) == Apart(c);
    }
    if Movable(c.a) && Movable(c.b) {
      ResolveConserves(root, c);
      assert CentreOfMass(after) == CentreOfMass(c);
    }
  }

  /** Two massless spheres in one place cannot be parted, and the checker says so. */
  lemma StatuesFailTheCheck(root: real -> real, c: Contact)
    requires ExactRoot(root) && c.a == c.b && c.a.r == 1.0 && c.a.m == 0.0
    ensures !ContactInvariants(root, c, Resolved(root, c))
  {
    RootIsUnique(root, 0.0, 0.0);
    StatuesOverlap(c);
    NoGap(root, c);
    InvariantsHoldIff(root, c);
  }

  lemma StatuesOverlap(c: Contact)
    requires c.a == c.b && c.a.r == 1.0 && c.a.m == 0.0
    ensures InvSum(c) == 0.0 && MinDistance(c) == 2.0
  {
  }

  lemma NoGap(root: real -> real, c: Contact)
    requires root(0.0) == 0.0 && Apart(c) == ZERO
    ensures Distance(root, c) == 0.0
  {
    assert Dot(ZERO, ZERO) == 0.0;
  }
}
