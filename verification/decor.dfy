/**
 Decoration placement (`CreateDecor`): a call counter shared by every chunk
 lets one call in three through; the admitted call classifies
 `noise(x * 0.2, 0) + 1` into bands that choose a catalog entry with one RNG
 draw, trees only on near-flat ground.
 */
module Decor {
  import opened Options
  import opened Vectors
  import opened Surface

  datatype Kind = Bush | Mushroom | Stone | Sign | Tree

  /** The `decors` list, in the order it is filled. */
  const Catalog: seq<Kind> :=
    [Bush, Bush, Bush, Bush, Mushroom, Mushroom, Stone, Sign, Tree, Tree, Tree]

  /** The `discard` counter and how many RNG samples have been consumed. */
  datatype DecorState = DecorState(discard: nat, draws: nat)

  /** How a placed sprite is oriented. */
  datatype Facing =
    | Upright                  // trees: no rotation, nudged down along `Up`
    | AlongSlope(left: Vec3)   // `Quaternion.FromRotationTo(Vector3.Left, left)`

  datatype Decoration = Decoration(index: nat, scale: real, pos: Vec3, facing: Facing)

  /** The bands of `chance = noise + 1` compared in the if-chain. */
  datatype Band = Bushes | Props | Trees | Bare

  function Classify(chance: real): Band
  {
    if chance < 1.2 then Bushes
    else if chance < 1.3 then Props
    else if chance < 1.7 then Trees
    else Bare
  }

  /** `rng.Next(bound)`: the sample scaled to `bound` and truncated, as `System.Random` does. */
  function Next(u: Unit, bound: nat): (r: nat)
    requires 0 < bound
    ensures r < bound
    ensures r as real <= u * bound as real < r as real + 1.0
  {
    (u * bound as real).Floor
  }

  /** The gate after `discard++`: the call proceeds iff the new counter is a multiple of 3. */
  predicate Proceeds(counter: nat)
  {
    counter % 3 == 0
  }

  /** Of any three consecutive calls exactly one passes the gate. */
  lemma OneInThree(c: nat)
    ensures (if Proceeds(c + 1) then 1 else 0) + (if Proceeds(c + 2) then 1 else 0)
            + (if Proceeds(c + 3) then 1 else 0) == 1
  {
  }

  /** Number of calls among the `n` calls after counter value `c` that pass the gate. */
  function PassCount(c: nat, n: nat): (k: nat)
    ensures k <= n
  {
    if n == 0 then 0 else PassCount(c, n - 1) + (if Proceeds(c + n) then 1 else 0)
  }

  /** The calls that pass among the `n` after counter value `c` are the multiples of 3 in (c, c + n]. */
  lemma {:induction false} PassCountClosedForm(c: nat, n: nat)
    ensures PassCount(c, n) == (c + n) / 3 - c / 3
  {
    if n > 0 {
      PassCountClosedForm(c, n - 1);
      var m := c + n;
      assert m % 3 == 0 ==> m / 3 == (m - 1) / 3 + 1;
      assert m % 3 != 0 ==> m / 3 == (m - 1) / 3;
    }
  }

  /** Counting from a fresh counter, exactly a third of the calls (rounded down) pass. */
  lemma PassCountFromZero(n: nat)
    ensures PassCount(0, n) == n / 3
  {
    PassCountClosedForm(0, n);
  }

  /** Whether the admitted call draws from the RNG: every band but `Bare`, and the tree band only on flat ground. */
  predicate Draws(chance: real, slopeY: real)
  {
    match Classify(chance)
    case Bushes => true
    case Props => true
    case Trees => Abs(slopeY) < 0.1
    case Bare => false
  }

  /** The catalog index an admitted call picks, given its band input, the slope and the RNG sample. */
  function Pick(chance: real, slopeY: real, u: Unit): (r: Option<nat>)
    ensures r.Some? ==> r.value < |Catalog| && Draws(chance, slopeY)
    ensures chance < 1.2 ==> (r.Some? <==> Next(u, 6) < 4)
    ensures chance < 1.2 && r.Some? ==> r.value == Next(u, 6) && Catalog[r.value] == Bush
    ensures 1.2 <= chance < 1.3 ==> r == Some(Next(u, 4) + 4) && Catalog[r.value] in {Mushroom, Stone, Sign}
    ensures 1.3 <= chance < 1.7 ==> (r.Some? <==> Abs(slopeY) < 0.1)
    ensures 1.3 <= chance < 1.7 && r.Some? ==> r.value == Next(u, 3) + 8 && Catalog[r.value] == Tree
    ensures r.Some? ==> (Catalog[r.value] == Tree <==> Classify(chance) == Trees)
    ensures 1.7 <= chance ==> r.None?
  {
    match Classify(chance)
    case Bushes =>
      var k := Next(u, 6);
      if k < 4 then Some(k) else None
    case Props => Some(Next(u, 4) + 4)
    case Trees => if Abs(slopeY) < 0.1 then Some(Next(u, 3) + 8) else None
    case Bare => None
  }

  /**
   The sprite node for catalog entry `index`: raised 15 in z
   (`Vector3.Forward * 15`); a tree stays upright and moves 0.1 down its
   `Up` axis, anything else is turned to follow `left`.
   */
  function Place(index: nat, position: Vec3, left: Vec3, tree: bool): Decoration
  {
    var scale := if index < 4 then 3.0 else 4.0;
    var raised := Add(position, Vec3(0.0, 0.0, 15.0));
    if tree then Decoration(index, scale, Add(raised, Vec3(0.0, -0.1, 0.0)), Upright)
    else Decoration(index, scale, raised, AlongSlope(left))
  }

  /**
   `CreateDecor(position, leftVector)`: one call of the decoration hook, with
   the counter and RNG position threaded through.
   */
  function CreateDecor(e: Env, s: DecorState, position: Vec3, left: Vec3): (r: (DecorState, Option<Decoration>))
    ensures !e.variant.decorEnabled ==> r.0 == s && r.1.None?
    ensures e.variant.decorEnabled ==> r.0.discard == s.discard + 1
    ensures r.1.Some? ==> Proceeds(s.discard + 1)
    ensures r.1.Some? ==> r.1.value.index < |Catalog|
    ensures var chance := e.noise(position.x * 0.2, 0.0) + 1.0;
            var admitted := e.variant.decorEnabled && Proceeds(s.discard + 1);
            var pick := Pick(chance, left.y, e.rng(s.draws));
            && r.0.draws == (if admitted && Draws(chance, left.y) then s.draws + 1 else s.draws)
            && (admitted ==> (r.1.Some? <==> pick.Some?))
            && (r.1.Some? ==> r.1.value.index == pick.value)
    ensures r.1.Some? ==>
              var d := r.1.value;
              var tree := Catalog[d.index] == Tree;
              && d.scale == (if Catalog[d.index] == Bush then 3.0 else 4.0)
              && d.pos == Vec3(position.x, if tree then position.y - 0.1 else position.y, position.z + 15.0)
              && d.facing == (if tree then Upright else AlongSlope(left))
  {
    if !e.variant.decorEnabled then (s, None)
    else
      var discard := s.discard + 1;
      if !Proceeds(discard) then (DecorState(discard, s.draws), None)
      else
        var chance := e.noise(position.x * 0.2, 0.0) + 1.0;
        var draws := if Draws(chance, left.y) then s.draws + 1 else s.draws;
        var pick := Pick(chance, left.y, e.rng(s.draws));
        match pick
        case None => (DecorState(discard, draws), None)
        case Some(k) => (DecorState(discard, draws), Some(Place(k, position, left, Classify(chance) == Trees)))
  }

  /**
   Three consecutive live calls advance the counter by three and place at
   most one decoration, whatever positions they are given.
   */
  lemma AtMostOneInThree(e: Env, s: DecorState, p1: Vec3, l1: Vec3, p2: Vec3, l2: Vec3, p3: Vec3, l3: Vec3)
    requires e.variant.decorEnabled
    ensures var a := CreateDecor(e, s, p1, l1);
            var b := CreateDecor(e, a.0, p2, l2);
            var c := CreateDecor(e, b.0, p3, l3);
            && c.0.discard == s.discard + 3
            && (if a.1.Some? then 1 else 0) + (if b.1.Some? then 1 else 0) + (if c.1.Some? then 1 else 0) <= 1
  {
    OneInThree(s.discard);
  }
}
