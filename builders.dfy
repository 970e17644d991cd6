/**
 * The fruit builders: each decides from the number of images whether it
 * accepts them (addToInit) and then appends one pickable fruit mesh per image
 * to SPHERES, with an `nth` counter naming the image, and its decorations
 * (branches, leaves, a tree branch, a bowl) to EXTRAS.
 *
 * What a builder adds is given as a function of the image count; the class
 * Scene holds SPHERES and EXTRAS and its methods append to them in the loops
 * the builders run, proved to add exactly what the functions say.
 */
module Builders {

  import opened Common

  /**
   * Where a fruit sits: slot `slot` of `size` fruits spread evenly round ring
   * `ring` at height `height`, the whole ring turned by `turn` radians, or at
   * fixed coordinates. The trigonometry that turns a ring slot into
   * coordinates is not modelled.
   */
  datatype Placement = OnRing(ring: nat, slot: nat, size: nat, height: real, turn: real) | At(x: real, y: real, z: real)

  /** A pickable sphere mesh textured with images[image]. */
  datatype Fruit = Fruit(image: nat, placement: Placement, scale: real)

  /** A decoration in EXTRAS; a tree branch carries its number of forks. */
  datatype Extra = Branch | Leaf | TreeBranch(forks: nat) | Bowl

  /** What one addToInit appends to SPHERES and to EXTRAS. */
  datatype Additions = Additions(fruits: seq<Fruit>, extras: seq<Extra>)

  const Nothing: Additions := Additions([], [])

  /** One fruit per image, image k at position k: each image index used exactly once. */
  predicate UsesEachImageOnce(fruits: seq<Fruit>, n: nat)
  {
    |fruits| == n && forall k :: 0 <= k < n ==> fruits[k].image == k
  }

  function Copies(n: nat, e: Extra): (r: seq<Extra>)
    ensures |r| == n && forall k :: 0 <= k < n ==> r[k] == e
  {
    seq(n, _ => e)
  }

  /** createLeaf: one leaf when leaves are enabled. */
  function LeafIf(enableLeaf: bool): seq<Extra>
  {
    if enableLeaf then [Leaf] else []
  }

  // ------------------------------------------------------------------ grape

  /** The integer part of the square root of n. */
  function FloorSqrt(n: nat): (r: nat)
    ensures r * r <= n < (r + 1) * (r + 1)
  {
    if n == 0 then 0
    else
      var r := FloorSqrt(n - 1);
      if (r + 1) * (r + 1) <= n then r + 1 else r
  }

  /** Math.sqrt(n) is an integer (parseInt(rows) == rows). */
  predicate IsSquare(n: nat)
  {
    FloorSqrt(n) * FloorSqrt(n) == n
  }

  lemma SqrtOfSquare(r: nat)
    ensures FloorSqrt(r * r) == r && IsSquare(r * r)
  {
    var s := FloorSqrt(r * r);
    if s < r {
      assert (s + 1) * (s + 1) <= r * r by {
        assert s + 1 <= r;
        MulMonotone(s + 1, r);
      }
      assert false;
    } else if s > r {
      assert (r + 1) * (r + 1) <= s * s by {
        MulMonotone(r + 1, s);
      }
      assert false;
    }
  }

  lemma MulMonotone(a: nat, b: nat)
    requires a <= b
    ensures a * a <= b * b
  {
    assert a * a <= a * b;
  }

  /** GRAPE accepts a positive perfect square. */
  predicate GrapeAccepts(n: nat)
  {
    n > 0 && IsSquare(n)
  }

  /**
   * The acceptance rule in terms of square roots: r * r images are accepted
   * exactly when r > 0, and a count strictly between two squares never is.
   */
  lemma GrapeAcceptance(n: nat, r: nat)
    ensures GrapeAccepts(r * r) <==> r > 0
    ensures r * r < n < (r + 1) * (r + 1) ==> !GrapeAccepts(n)
  {
    SqrtOfSquare(r);
    if r * r < n < (r + 1) * (r + 1) {
      assert FloorSqrt(n) == r by {
        var s := FloorSqrt(n);
        if s < r {
          MulMonotone(s + 1, r);
        } else if s > r {
          MulMonotone(r + 1, s);
        }
      }
    }
  }

  /** Ring i of a bunch with `rows` rings: 2i+1 grapes at height 2i+1-rows, images first.. */
  function GrapeRing(rows: nat, i: nat, first: nat): (r: seq<Fruit>)
    ensures |r| == 2 * i + 1
    ensures forall j :: 0 <= j < |r| ==> r[j].image == first + j
  {
    seq(2 * i + 1, j requires 0 <= j < 2 * i + 1 => Fruit(first + j, OnRing(i, j, 2 * i + 1, (2 * i + 1 - rows) as real, 0.0), 1.0))
  }

  /** The first `count` rings of a bunch with `rows` rings; ring i starts at image i * i. */
  function GrapeRings(rows: nat, count: nat): seq<Fruit>
  {
    if count == 0 then [] else GrapeRings(rows, count - 1) + GrapeRing(rows, count - 1, (count - 1) * (count - 1))
  }

  function GrapeLayout(rows: nat): seq<Fruit>
  {
    GrapeRings(rows, rows)
  }

  /** Rings of 1, 3, 5, ... grapes add up to count² grapes, image k being the k-th. */
  lemma {:induction false} GrapeRingsShape(rows: nat, count: nat)
    ensures UsesEachImageOnce(GrapeRings(rows, count), count * count)
  {
    if count > 0 {
      var c := count - 1;
      GrapeRingsShape(rows, c);
      var prefix: seq<Fruit> := GrapeRings(rows, c);
      var ring: seq<Fruit> := GrapeRing(rows, c, c * c);
      assert GrapeRings(rows, count) == prefix + ring;
      assert count * count == c * c + (2 * c + 1);
      forall k | 0 <= k < count * count
        ensures (prefix + ring)[k].image == k
      {
        if k >= c * c {
          assert (prefix + ring)[k] == ring[k - c * c];
        }
      }
    }
  }

  /** The later GRAPE addToInit: nothing for 0 images or a non-square count. */
  function GrapeAdditions(n: nat, enableLeaf: bool): Additions
  {
    if !GrapeAccepts(n) then Nothing
    else Additions(GrapeLayout(FloorSqrt(n)), [Branch, Branch] + LeafIf(enableLeaf))
  }

  /**
   * GRAPE: a rejected count adds nothing; an accepted one adds exactly n
   * grapes, image k on the k-th, two branches and the optional leaf.
   */
  lemma GrapeBuild(n: nat, enableLeaf: bool)
    ensures !GrapeAccepts(n) ==> GrapeAdditions(n, enableLeaf) == Nothing
    ensures GrapeAccepts(n) ==>
      && UsesEachImageOnce(GrapeAdditions(n, enableLeaf).fruits, n)
      && GrapeAdditions(n, enableLeaf).extras == [Branch, Branch] + LeafIf(enableLeaf)
  {
    if GrapeAccepts(n) {
      GrapeRingsShape(FloorSqrt(n), FloorSqrt(n));
    }
  }

  /**
   * The earlier GRAPE: a non-square count only skips the grapes (0 images
   * count as the square of 0); the two branches and the leaf are added anyway.
   */
  function EarlyGrapeAdditions(n: nat, enableLeaf: bool): Additions
  {
    Additions(if IsSquare(n) then GrapeLayout(FloorSqrt(n)) else [], [Branch, Branch] + LeafIf(enableLeaf))
  }

  lemma EarlyGrapeBuild(n: nat, enableLeaf: bool)
    ensures EarlyGrapeAdditions(n, enableLeaf).extras == [Branch, Branch] + LeafIf(enableLeaf)
    ensures IsSquare(n) ==> UsesEachImageOnce(EarlyGrapeAdditions(n, enableLeaf).fruits, n)
    ensures !IsSquare(n) ==> EarlyGrapeAdditions(n, enableLeaf).fruits == []
  {
    if IsSquare(n) {
      GrapeRingsShape(FloorSqrt(n), FloorSqrt(n));
    }
  }

  // ----------------------------------------------------------------- cherry

  /** CHERRY accepts one to three images. */
  predicate CherryAccepts(n: nat)
  {
    1 <= n <= 3
  }

  /** n cherries evenly round one ring turned a quarter turn, cherry i with image i. */
  function CherryLayout(n: nat): seq<Fruit>
  {
    seq(n, i requires 0 <= i < n => Fruit(i, OnRing(0, i, n, 0.0, HalfPi), 1.0))
  }

  function CherryAdditions(n: nat, enableLeaf: bool): Additions
  {
    if !CherryAccepts(n) then Nothing
    else Additions(CherryLayout(n), Copies(n, Branch) + LeafIf(enableLeaf))
  }

  /** CHERRY: 0 or more than 3 images add nothing; otherwise n cherries, one branch each, the optional leaf. */
  lemma CherryBuild(n: nat, enableLeaf: bool)
    ensures !CherryAccepts(n) ==> CherryAdditions(n, enableLeaf) == Nothing
    ensures CherryAccepts(n) ==>
      && UsesEachImageOnce(CherryAdditions(n, enableLeaf).fruits, n)
      && CherryAdditions(n, enableLeaf).extras == Copies(n, Branch) + LeafIf(enableLeaf)
  {
  }

  /** The earlier CHERRY: more than 3 images skip the cherries but not the n branches nor the leaf. */
  function EarlyCherryAdditions(n: nat, enableLeaf: bool): Additions
  {
    Additions(if n > 3 then [] else CherryLayout(n), Copies(n, Branch) + LeafIf(enableLeaf))
  }

  lemma EarlyCherryBuild(n: nat, enableLeaf: bool)
    ensures n > 3 ==> EarlyCherryAdditions(n, enableLeaf).fruits == []
    ensures n <= 3 ==> UsesEachImageOnce(EarlyCherryAdditions(n, enableLeaf).fruits, n)
    ensures EarlyCherryAdditions(n, enableLeaf).extras == Copies(n, Branch) + LeafIf(enableLeaf)
  {
  }

  // ------------------------------------------------------------------ apple

  /** The six fixed apple positions. */
  const ApplePositions: seq<Placement> := [
    At(6.7, -2.6, -0.8),
    At(3.4, 0.4, 1.5),
    At(5.4, -2.5, 1.2),
    At(2.4, 0.3, -2.0),
    At(3.3, -1.9, 0.0),
    At(0.8, -1.2, 0.0)
  ]

  /** APPLEBRANCH accepts two to six images. */
  predicate AppleAccepts(n: nat)
  {
    2 <= n <= 6
  }

  /** The forks of the tree branch: 3 for fewer than 3 apples, otherwise 5. */
  function BranchNumber(n: nat): (forks: nat)
    ensures forks == 3 || forks == 5
  {
    if n < 3 then 3 else 5
  }

  /** Six leaf positions, three more for a five-fork branch. */
  function AppleLeafCount(n: nat): nat
  {
    if BranchNumber(n) == 5 then 9 else 6
  }

  /** Apple i at the i-th table position; the table must hold n entries. */
  function AppleLayout(n: nat): seq<Fruit>
    requires n <= |ApplePositions|
  {
    seq(n, i requires 0 <= i < n => Fruit(i, ApplePositions[i], 1.0))
  }

  function AppleAdditions(n: nat, enableLeaf: bool): Additions
  {
    if !AppleAccepts(n) then Nothing
    else Additions(
      AppleLayout(n),
      [TreeBranch(BranchNumber(n))] + Copies(if enableLeaf then AppleLeafCount(n) else 0, Leaf))
  }

  /**
   * APPLEBRANCH: a count outside 2..6 adds nothing; otherwise n apples, each
   * at its own table entry (the table is never overrun), one tree branch with
   * 3 forks for 2 apples and 5 otherwise, and 6 or 9 leaves when enabled.
   */
  lemma AppleBuild(n: nat, enableLeaf: bool)
    ensures !AppleAccepts(n) ==> AppleAdditions(n, enableLeaf) == Nothing
    ensures AppleAccepts(n) ==>
      && n <= |ApplePositions|
      && var a := AppleAdditions(n, enableLeaf);
      && UsesEachImageOnce(a.fruits, n)
      && (forall i :: 0 <= i < n ==> a.fruits[i].placement == ApplePositions[i])
      && a.extras == [TreeBranch(if n == 2 then 3 else 5)] + Copies(if !enableLeaf then 0 else if n == 2 then 6 else 9, Leaf)
  {
  }

  // ------------------------------------------------------------------- bowl

  /** from3To5 or divBy3, and at least one image. */
  predicate BowlAccepts(n: nat)
  {
    n > 0 && ((2 < n < 6) || n % 3 == 0)
  }

  /** The two row sizes: all in one row for 3..5, else two thirds and one third. */
  function BowlRows(n: nat): (rows: (nat, nat))
  {
    if 2 < n < 6 then (n, 0) else (n * 2 / 3, n / 3)
  }

  /** Row 1 on the lower ring, row 2 on the upper ring at height 1.65 turned by 0.5, images counted on across the rows. */
  function BowlLayout(row1: nat, row2: nat): seq<Fruit>
  {
    seq(row1, i requires 0 <= i < row1 => Fruit(i, OnRing(0, i, row1, 0.0, 0.0), 1.0))
    + seq(row2, i requires 0 <= i < row2 => Fruit(row1 + i, OnRing(1, i, row2, 1.65, 0.5), 1.0))
  }

  function BowlAdditions(n: nat): Additions
  {
    if !BowlAccepts(n) then Nothing
    else Additions(BowlLayout(BowlRows(n).0, BowlRows(n).1), [Bowl])
  }

  /**
   * FRUITBOWL: the row split covers every image (2n/3 + n/3 = n for a
   * multiple of 3, with the upper row half the lower one); a rejected count
   * adds nothing and an accepted one n fruits and the bowl.
   */
  lemma BowlBuild(n: nat)
    ensures BowlAccepts(n) ==> BowlRows(n).0 + BowlRows(n).1 == n
    ensures BowlAccepts(n) && !(2 < n < 6) ==> BowlRows(n).0 == 2 * BowlRows(n).1 && BowlRows(n).1 >= 2
    ensures 2 < n < 6 ==> BowlRows(n) == (n, 0)
    ensures !BowlAccepts(n) ==> BowlAdditions(n) == Nothing
    ensures BowlAccepts(n) ==> UsesEachImageOnce(BowlAdditions(n).fruits, n) && BowlAdditions(n).extras == [Bowl]
  {
  }

  // ----------------------------------------------------------------- custom

  /** A missing or zero coordinate is 0 (the `? : 0` fallback). */
  function Coordinate(position: seq<real>, k: nat): real
  {
    if k < |position| then position[k] else 0.0
  }

  function CustomPlacement(positions: seq<seq<real>>, i: nat): Placement
  {
    if i < |positions| then At(Coordinate(positions[i], 0), Coordinate(positions[i], 1), Coordinate(positions[i], 2))
    else At(0.0, 0.0, 0.0)
  }

  /** A missing or zero scale (falsy in the code) gives scale 1. */
  function CustomScale(scales: seq<real>, i: nat): (scale: real)
    ensures scale != 0.0
    ensures i < |scales| && scales[i] != 0.0 ==> scale == scales[i]
  {
    if i < |scales| && scales[i] != 0.0 then scales[i] else 1.0
  }

  function CustomLayout(n: nat, positions: seq<seq<real>>, scales: seq<real>): seq<Fruit>
  {
    seq(n, i requires 0 <= i < n => Fruit(i, CustomPlacement(positions, i), CustomScale(scales, i)))
  }

  /** CUSTOM takes every image count: fruit i at fruitsPositions[i] with fruitsScales[i]. */
  lemma CustomBuild(n: nat, positions: seq<seq<real>>, scales: seq<real>)
    ensures var fruits := CustomLayout(n, positions, scales);
      && UsesEachImageOnce(fruits, n)
      && forall i :: 0 <= i < n ==>
           fruits[i].scale != 0.0
           && (i < |positions| && |positions[i]| == 3 ==>
                 fruits[i].placement == At(positions[i][0], positions[i][1], positions[i][2]))
           && (i >= |positions| ==> fruits[i].placement == At(0.0, 0.0, 0.0))
  {
  }

  // ------------------------------------------------------------------ scene

  /** SPHERES and EXTRAS of one viewer. */
  class Scene {
    var spheres: seq<Fruit>
    var extras: seq<Extra>

    constructor ()
      ensures spheres == [] && extras == []
    {
      spheres := [];
      extras := [];
    }

    /** createGrapes: ring i gets 2i+1 grapes, the counter nth naming the image. */
    method CreateGrapes(rows: nat)
      modifies this
      ensures spheres == old(spheres) + GrapeLayout(rows) && extras == old(extras)
    {
      var nth := 0;
      var i := 0;
      while i < rows
        invariant 0 <= i <= rows && nth == i * i
        invariant spheres == old(spheres) + GrapeRings(rows, i) && extras == old(extras)
      {
        var numOfGrapesInRow := i * 2 + 1;
        var j := 0;
        while j < numOfGrapesInRow
          invariant 0 <= j <= numOfGrapesInRow && nth == i * i + j
          invariant spheres == old(spheres) + GrapeRings(rows, i) + GrapeRing(rows, i, i * i)[..j]
          invariant extras == old(extras)
        {
          var grape := Fruit(nth, OnRing(i, j, numOfGrapesInRow, (numOfGrapesInRow - rows) as real, 0.0), 1.0);
          assert GrapeRing(rows, i, i * i)[..j + 1] == GrapeRing(rows, i, i * i)[..j] + [grape];
          spheres := spheres + [grape];
          nth := nth + 1;
          j := j + 1;
        }
        assert GrapeRing(rows, i, i * i)[..j] == GrapeRing(rows, i, i * i);
        i := i + 1;
      }
    }

    /** The two torus branches of a grape bunch. */
    method CreateGrapeBranch()
      modifies this
      ensures spheres == old(spheres) && extras == old(extras) + [Branch, Branch]
    {
      extras := extras + [Branch, Branch];
    }

    method CreateLeaf(enableLeaf: bool)
      modifies this
      ensures spheres == old(spheres) && extras == old(extras) + LeafIf(enableLeaf)
    {
      if !enableLeaf {
        return;
      }
      extras := extras + [Leaf];
    }

    /** The later GRAPE addToInit. */
    method AddGrapes(n: nat, enableLeaf: bool)
      modifies this
      ensures spheres == old(spheres) + GrapeAdditions(n, enableLeaf).fruits
      ensures extras == old(extras) + GrapeAdditions(n, enableLeaf).extras
    {
      var rowOfGrapes := FloorSqrt(n);
      var isInt := rowOfGrapes * rowOfGrapes == n;
      if n == 0 {
        return;
      }
      if !isInt {
        return;
      }
      CreateGrapes(rowOfGrapes);
      CreateGrapeBranch();
      CreateLeaf(enableLeaf);
    }

    /** The earlier GRAPE addToInit: createGrapes gives up on a non-square count, the rest runs regardless. */
    method AddGrapesEarly(n: nat, enableLeaf: bool)
      modifies this
      ensures spheres == old(spheres) + EarlyGrapeAdditions(n, enableLeaf).fruits
      ensures extras == old(extras) + EarlyGrapeAdditions(n, enableLeaf).extras
    {
      var rowsOfGrapes := FloorSqrt(n);
      if rowsOfGrapes * rowsOfGrapes == n {
        CreateGrapes(rowsOfGrapes);
      }
      CreateGrapeBranch();
      CreateLeaf(enableLeaf);
    }

    method CreateCherries(n: nat)
      modifies this
      ensures spheres == old(spheres) + CherryLayout(n) && extras == old(extras)
    {
      var i := 0;
      while i < n
        invariant 0 <= i <= n
        invariant spheres == old(spheres) + CherryLayout(n)[..i] && extras == old(extras)
      {
        var cherry := Fruit(i, OnRing(0, i, n, 0.0, HalfPi), 1.0);
        assert CherryLayout(n)[..i + 1] == CherryLayout(n)[..i] + [cherry];
        spheres := spheres + [cherry];
        i := i + 1;
      }
      assert CherryLayout(n)[..n] == CherryLayout(n);
    }

    /** One branch per cherry. */
    method CreateCherryBranches(n: nat)
      modifies this
      ensures spheres == old(spheres) && extras == old(extras) + Copies(n, Branch)
    {
      var i := 0;
      while i < n
        invariant 0 <= i <= n
        invariant spheres == old(spheres) && extras == old(extras) + Copies(i, Branch)
      {
        assert Copies(i + 1, Branch) == Copies(i, Branch) + [Branch];
        extras := extras + [Branch];
        i := i + 1;
      }
    }

    /** The later CHERRY addToInit. */
    method AddCherries(n: nat, enableLeaf: bool)
      modifies this
      ensures spheres == old(spheres) + CherryAdditions(n, enableLeaf).fruits
      ensures extras == old(extras) + CherryAdditions(n, enableLeaf).extras
    {
      if n == 0 {
        return;
      }
      if n > 3 {
        return;
      }
      CreateCherries(n);
      CreateCherryBranches(n);
      CreateLeaf(enableLeaf);
    }

    /** The earlier CHERRY addToInit: only createCherry checks the limit. */
    method AddCherriesEarly(n: nat, enableLeaf: bool)
      modifies this
      ensures spheres == old(spheres) + EarlyCherryAdditions(n, enableLeaf).fruits
      ensures extras == old(extras) + EarlyCherryAdditions(n, enableLeaf).extras
    {
      if n <= 3 {
        CreateCherries(n);
      }
      CreateCherryBranches(n);
      CreateLeaf(enableLeaf);
    }

    method CreateApples(n: nat)
      requires n <= |ApplePositions|
      modifies this
      ensures spheres == old(spheres) + AppleLayout(n) && extras == old(extras)
    {
      var i := 0;
      while i < n
        invariant 0 <= i <= n
        invariant spheres == old(spheres) + AppleLayout(n)[..i] && extras == old(extras)
      {
        var apple := Fruit(i, ApplePositions[i], 1.0);
        assert AppleLayout(n)[..i + 1] == AppleLayout(n)[..i] + [apple];
        spheres := spheres + [apple];
        i := i + 1;
      }
      assert AppleLayout(n)[..n] == AppleLayout(n);
    }

    /** createLeafs: one leaf per entry of the leaf table. */
    method CreateAppleLeaves(n: nat, enableLeaf: bool)
      modifies this
      ensures spheres == old(spheres)
      ensures extras == old(extras) + Copies(if enableLeaf then AppleLeafCount(n) else 0, Leaf)
    {
      if !enableLeaf {
        return;
      }
      var leafPositions := AppleLeafCount(n);
      var i := 0;
      while i < leafPositions
        invariant 0 <= i <= leafPositions
        invariant spheres == old(spheres) && extras == old(extras) + Copies(i, Leaf)
      {
        assert Copies(i + 1, Leaf) == Copies(i, Leaf) + [Leaf];
        extras := extras + [Leaf];
        i := i + 1;
      }
    }

    /** The APPLEBRANCH addToInit. */
    method AddApples(n: nat, enableLeaf: bool)
      modifies this
      ensures spheres == old(spheres) + AppleAdditions(n, enableLeaf).fruits
      ensures extras == old(extras) + AppleAdditions(n, enableLeaf).extras
    {
      if n < 2 || n > 6 {
        return;
      }
      CreateApples(n);
      extras := extras + [TreeBranch(BranchNumber(n))];
      CreateAppleLeaves(n, enableLeaf);
    }

    /** createFruits of the bowl: the lower row, then the upper one if it is not empty. */
    method CreateBowlFruits(row1: nat, row2: nat)
      modifies this
      ensures spheres == old(spheres) + BowlLayout(row1, row2) && extras == old(extras)
    {
      ghost var lower := seq(row1, i requires 0 <= i < row1 => Fruit(i, OnRing(0, i, row1, 0.0, 0.0), 1.0));
      ghost var upper := seq(row2, i requires 0 <= i < row2 => Fruit(row1 + i, OnRing(1, i, row2, 1.65, 0.5), 1.0));
      assert BowlLayout(row1, row2) == lower + upper;
      var nth := 0;
      var i := 0;
      while i < row1
        invariant 0 <= i <= row1 && nth == i
        invariant spheres == old(spheres) + lower[..i] && extras == old(extras)
      {
        var fruit := Fruit(nth, OnRing(0, i, row1, 0.0, 0.0), 1.0);
        assert lower[..i + 1] == lower[..i] + [fruit];
        spheres := spheres + [fruit];
        nth := nth + 1;
        i := i + 1;
      }
      assert lower[..row1] == lower;
      if row2 == 0 {
        assert upper == [];
        return;
      }
      i := 0;
      while i < row2
        invariant 0 <= i <= row2 && nth == row1 + i
        invariant spheres == old(spheres) + lower + upper[..i] && extras == old(extras)
      {
        var fruit := Fruit(nth, OnRing(1, i, row2, 1.65, 0.5), 1.0);
        assert upper[..i + 1] == upper[..i] + [fruit];
        spheres := spheres + [fruit];
        nth := nth + 1;
        i := i + 1;
      }
      assert upper[..row2] == upper;
    }

    /** The FRUITBOWL addToInit. */
    method AddBowl(n: nat)
      modifies this
      ensures spheres == old(spheres) + BowlAdditions(n).fruits
      ensures extras == old(extras) + BowlAdditions(n).extras
    {
      var from3To5 := n > 2 && n < 6;
      var divBy3 := n % 3 == 0;
      var numOfFruitsInRow1, numOfFruitsInRow2 := 0, 0;
      if from3To5 {
        numOfFruitsInRow1, numOfFruitsInRow2 := n, 0;
      }
      if !from3To5 && divBy3 {
        numOfFruitsInRow1, numOfFruitsInRow2 := n * 2 / 3, n / 3;
      }
      if n == 0 {
        return;
      }
      if !from3To5 && !divBy3 {
        return;
      }
      CreateBowlFruits(numOfFruitsInRow1, numOfFruitsInRow2);
      extras := extras + [Bowl];
    }

    /** The CUSTOM addToInit's createFruits. */
    method AddCustomFruits(n: nat, fruitsPositions: seq<seq<real>>, fruitsScales: seq<real>)
      modifies this
      ensures spheres == old(spheres) + CustomLayout(n, fruitsPositions, fruitsScales)
      ensures extras == old(extras)
    {
      var i := 0;
      while i < n
        invariant 0 <= i <= n
        invariant spheres == old(spheres) + CustomLayout(n, fruitsPositions, fruitsScales)[..i]
        invariant extras == old(extras)
      {
        var position := At(0.0, 0.0, 0.0);
        if i < |fruitsPositions| {
          var entry := fruitsPositions[i];
          var x := if |entry| > 0 then entry[0] else 0.0;
          var y := if |entry| > 1 then entry[1] else 0.0;
          var z := if |entry| > 2 then entry[2] else 0.0;
          position := At(x, y, z);
        }
        var scale := if i < |fruitsScales| && fruitsScales[i] != 0.0 then fruitsScales[i] else 1.0;
        var fruit := Fruit(i, position, scale);
        assert CustomLayout(n, fruitsPositions, fruitsScales)[..i + 1]
            == CustomLayout(n, fruitsPositions, fruitsScales)[..i] + [fruit];
        spheres := spheres + [fruit];
        i := i + 1;
      }
      assert CustomLayout(n, fruitsPositions, fruitsScales)[..n] == CustomLayout(n, fruitsPositions, fruitsScales);
    }
  }
}
