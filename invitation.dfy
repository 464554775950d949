/**
 * The page that holds everything (WeddingInvitation): the seeded
 * pseudo-random generator behind the decorative leaves, the list of fallen
 * leaves that grows as their timers fire, and the loading screen that
 * counts preloaded images.
 *
 * Only integer state is modelled: the generator's value, the leaf ids and
 * image indices, and the loading counters. The floating-point placement
 * values drawn from the generator are not.
 */
module Invitation {
  import JsMath

  // ---------------------------------------------------------------------
  // seededRandom: value := (value * 9301 + 49297) % 233280
  // ---------------------------------------------------------------------

  const Multiplier: int := 9301
  const Increment: int := 49297
  const Modulus: int := 233280

  /** One step of the generator; each call returns the new value divided by Modulus. */
  function NextValue(v: int): (r: int)
    ensures v >= 0 ==> 0 <= r < Modulus
  {
    JsMath.Rem(v * Multiplier + Increment, Modulus)
  }

  /** The generator's value after `n` calls. */
  function ValueAfter(seed: int, n: nat): int {
    if n == 0 then seed else NextValue(ValueAfter(seed, n - 1))
  }

  /** The numerators of the first `n` numbers a generator seeded with `seed` returns. */
  function Draws(seed: int, n: nat): (ds: seq<int>)
    ensures |ds| == n
    ensures forall i :: 0 <= i < n ==> ds[i] == ValueAfter(seed, i + 1)
  {
    if n == 0 then [] else Draws(seed, n - 1) + [ValueAfter(seed, n)]
  }

  /** From a non-negative seed every returned number lies in [0, 1). */
  lemma {:induction false} DrawsInRange(seed: int, n: nat)
    requires seed >= 0
    ensures forall i :: 0 <= i < n ==> 0 <= Draws(seed, n)[i] < Modulus
  {
    if n > 0 {
      DrawsInRange(seed, n - 1);
      assert ValueAfter(seed, n - 1) >= 0 by { ValueNonNegative(seed, n - 1); }
    }
  }

  lemma {:induction false} ValueNonNegative(seed: int, n: nat)
    requires seed >= 0
    ensures ValueAfter(seed, n) >= 0
  {
    if n > 0 {
      ValueNonNegative(seed, n - 1);
    }
  }

  /**
   * A second generator with the same seed replays the first one's numbers:
   * drawing fewer numbers gives a prefix of drawing more.
   */
  lemma {:induction false} DrawsReplay(seed: int, m: nat, n: nat)
    requires m <= n
    ensures Draws(seed, m) == Draws(seed, n)[..m]
    decreases n
  {
    if m < n {
      DrawsReplay(seed, m, n - 1);
      assert Draws(seed, n)[..n - 1] == Draws(seed, n - 1);
    }
  }

  /** The closure returned by seededRandom, with its captured `value` as a field. */
  class Generator {
    var value: int

    constructor (seed: int)
      ensures value == seed
    {
      value := seed;
    }

    /** One call of the closure; the result is the numerator over Modulus. */
    method Next() returns (r: int)
      modifies this
      ensures value == NextValue(old(value)) && r == value
    {
      value := JsMath.Rem(value * Multiplier + Increment, Modulus);
      r := value;
    }
  }

  /** Draws `n` numbers from a fresh generator, as the leaf effect does for each particle. */
  method DrawFrom(seed: int, n: nat) returns (ds: seq<int>)
    ensures ds == Draws(seed, n)
    ensures seed >= 0 ==> forall i :: 0 <= i < n ==> 0 <= ds[i] < Modulus
  {
    var g := new Generator(seed);
    ds := [];
    var k := 0;
    while k < n
      invariant 0 <= k <= n
      invariant ds == Draws(seed, k) && g.value == ValueAfter(seed, k)
    {
      var r := g.Next();
      ds := ds + [r];
      k := k + 1;
    }
    if seed >= 0 {
      DrawsInRange(seed, n);
    }
  }

  // ---------------------------------------------------------------------
  // The fallen leaves
  // ---------------------------------------------------------------------

  /** How many leaf particles there are, and how many leaf images. */
  const LeafCount: nat := 20
  const MapleLeafImages: seq<string> := [
    "/transparent-maple-leaf-orange.png",
    "/transparent-maple-leaf-red.png",
    "/transparent-maple-leaf-yellow.png",
    "/transparent-maple-leaf-brown.png"]

  /** The seed of particle `i`. */
  function LeafSeed(i: nat): nat {
    i * 1000 + 12345
  }

  /**
   * `Math.floor(random() * mapleLeafImages.length)` for a generator value
   * `v`: the floor of 4 * v / 233280, which doubles compute exactly here.
   */
  function ImageIndex(v: int): int {
    (v * |MapleLeafImages|) / Modulus
  }

  /** The image index of particle `i`: its fourth number. */
  function LeafImageIndex(i: nat): int {
    ImageIndex(Draws(LeafSeed(i), 4)[3])
  }

  /** Every particle's image index picks one of the four leaf images. */
  lemma LeafImageIndexValid(i: nat)
    ensures 0 <= LeafImageIndex(i) < |MapleLeafImages|
  {
    DrawsInRange(LeafSeed(i), 4);
  }

  /** A fallen leaf, without its floating-point placement. */
  datatype Leaf = Leaf(id: nat, imageIndex: int)

  /** Ids that strictly increase along the list, all below `next`. */
  predicate IdsIncreasingBelow(leaves: seq<Leaf>, next: nat) {
    && (forall k :: 0 <= k < |leaves| ==> leaves[k].id < next)
    && (forall j, k :: 0 <= j < k < |leaves| ==> leaves[j].id < leaves[k].id)
  }

  /** Appending a leaf with the counter's value keeps the ids increasing, and so distinct. */
  lemma AppendKeepsIdsIncreasing(leaves: seq<Leaf>, next: nat, imageIndex: int)
    requires IdsIncreasingBelow(leaves, next)
    ensures IdsIncreasingBelow(leaves + [Leaf(next, imageIndex)], next + 1)
    ensures forall j, k :: 0 <= j < k < |leaves| + 1 ==>
      (leaves + [Leaf(next, imageIndex)])[j].id != (leaves + [Leaf(next, imageIndex)])[k].id
  {
  }

  /** The leaf state of the page: the list, the id counter, the leaf timers not yet fired. */
  class LeafField {
    var fallenLeaves: seq<Leaf>
    var leafIdCounter: nat
    var pending: set<nat>

    ghost predicate Valid()
      reads this
    {
      && IdsIncreasingBelow(fallenLeaves, leafIdCounter)
      && (forall i :: i in pending ==> i < LeafCount)
      && |fallenLeaves| + |pending| <= LeafCount
    }

    constructor ()
      ensures Valid() && fallenLeaves == [] && leafIdCounter == 0 && pending == {}
    {
      fallenLeaves, leafIdCounter, pending := [], 0, {};
    }

    /** The effect at mount: one timer per particle index. */
    method ScheduleLeaves()
      requires Valid() && fallenLeaves == [] && pending == {}
      modifies this
      ensures Valid()
      ensures |pending| == LeafCount && (forall i :: i in pending <==> 0 <= i < LeafCount)
      ensures fallenLeaves == old(fallenLeaves) && leafIdCounter == old(leafIdCounter)
    {
      var i := 0;
      while i < LeafCount
        invariant 0 <= i <= LeafCount
        invariant |pending| == i && (forall j :: j in pending <==> 0 <= j < i)
        invariant fallenLeaves == old(fallenLeaves) && leafIdCounter == old(leafIdCounter)
      {
        pending := pending + {i};
        i := i + 1;
      }
    }

    /** The timer of particle `i` fires: one leaf, with the counter's previous value as id. */
    method LeafTimerFires(i: nat)
      requires Valid() && i in pending
      modifies this
      ensures Valid()
      ensures fallenLeaves == old(fallenLeaves) + [Leaf(old(leafIdCounter), LeafImageIndex(i))]
      ensures leafIdCounter == old(leafIdCounter) + 1 && pending == old(pending) - {i}
    {
      AppendKeepsIdsIncreasing(fallenLeaves, leafIdCounter, LeafImageIndex(i));
      var id := leafIdCounter;
      leafIdCounter := leafIdCounter + 1;
      fallenLeaves := fallenLeaves + [Leaf(id, LeafImageIndex(i))];
      pending := pending - {i};
    }

    /** The effect's cleanup clears every leaf timer. */
    method Teardown()
      requires Valid()
      modifies this
      ensures Valid() && pending == {}
      ensures fallenLeaves == old(fallenLeaves) && leafIdCounter == old(leafIdCounter)
    {
      pending := {};
    }
  }

  // ---------------------------------------------------------------------
  // The loading screen
  // ---------------------------------------------------------------------

  /** The background image and the four leaf images. */
  const TotalImages: nat := 1 + |MapleLeafImages|

  /** `Math.round(loaded / total * 100)`, rounding halves up. */
  function Progress(loaded: nat, total: nat): int
    requires total > 0
  {
    (200 * loaded + total) / (2 * total)
  }

  /** Progress stays within 0..100, grows with the count, and is 100 exactly when all are counted. */
  lemma ProgressLaws(a: nat, b: nat, total: nat)
    requires total > 0 && a <= b <= total
    ensures 0 <= Progress(a, total) <= Progress(b, total) <= 100
    ensures Progress(total, total) == 100
  {
    ProgressMonotone(a, b, total);
    ProgressMonotone(b, total, total);
    JsMath.DivModUnique(200 * total + total, 2 * total, 100, total);
  }

  lemma ProgressMonotone(a: nat, b: nat, total: nat)
    requires total > 0 && a <= b
    ensures 0 <= Progress(a, total) <= Progress(b, total)
  {
    JsMath.DivMonotone(200 * a + total, 200 * b + total, 2 * total);
  }

  /** For the five images of this page each image adds 20 percent. */
  lemma ProgressOfFive(loaded: nat)
    requires loaded <= 5
    ensures Progress(loaded, 5) == 20 * loaded
  {
    JsMath.DivModUnique(200 * loaded + 5, 10, 20 * loaded, 5);
  }

  /**
   * The loading screen's state: the effect's local counter, the progress
   * and isLoading states, the images still loading, and the two timers
   * that can end the loading screen.
   */
  class Loader {
    var loadedCount: nat
    var unsettled: nat
    var loadingProgress: int
    var isLoading: bool
    var hideTimerPending: bool
    var timeoutPending: bool

    ghost predicate Valid()
      reads this
    {
      && loadedCount + unsettled == TotalImages
      && loadingProgress == Progress(loadedCount, TotalImages)
      && (hideTimerPending ==> loadedCount == TotalImages)
    }

    /** Mount: every image starts loading and the 3000 ms timeout is armed. */
    constructor ()
      ensures Valid() && isLoading && loadingProgress == 0 && loadedCount == 0
      ensures unsettled == TotalImages && timeoutPending && !hideTimerPending
    {
      loadedCount, unsettled, loadingProgress := 0, TotalImages, 0;
      isLoading, hideTimerPending, timeoutPending := true, false, true;
    }

    /**
     * handleImageLoad, run by both onload and onerror: count the image,
     * update the progress, and once all are counted arm the 500 ms timer.
     */
    method ImageSettled()
      requires Valid() && unsettled > 0
      modifies this
      ensures Valid()
      ensures loadedCount == old(loadedCount) + 1 && unsettled == old(unsettled) - 1
      ensures loadingProgress >= old(loadingProgress)
      ensures loadingProgress == 100 <==> loadedCount == TotalImages
      ensures hideTimerPending == (old(hideTimerPending) || loadedCount == TotalImages)
      ensures isLoading == old(isLoading) && timeoutPending == old(timeoutPending)
    {
      ProgressLaws(loadedCount, loadedCount + 1, TotalImages);
      ProgressOfFive(loadedCount + 1);
      loadedCount := loadedCount + 1;
      unsettled := unsettled - 1;
      loadingProgress := Progress(loadedCount, TotalImages);
      if loadedCount == TotalImages {
        hideTimerPending := true;
      }
    }

    /** The 500 ms timer armed after the last image. */
    method HideTimerFires()
      requires Valid() && hideTimerPending
      modifies this
      ensures Valid() && !isLoading && !hideTimerPending && loadedCount == TotalImages
      ensures loadedCount == old(loadedCount) && loadingProgress == old(loadingProgress)
      ensures timeoutPending == old(timeoutPending)
    {
      isLoading := false;
      hideTimerPending := false;
    }

    /** The 3000 ms timeout: the loading screen ends whatever the count. */
    method TimeoutFires()
      requires Valid() && timeoutPending
      modifies this
      ensures Valid() && !isLoading && !timeoutPending
      ensures loadedCount == old(loadedCount) && loadingProgress == old(loadingProgress)
      ensures hideTimerPending == old(hideTimerPending)
    {
      isLoading := false;
      timeoutPending := false;
    }

    /** The effect's cleanup clears the timeout only. */
    method Teardown()
      requires Valid()
      modifies this
      ensures Valid() && !timeoutPending
      ensures isLoading == old(isLoading) && hideTimerPending == old(hideTimerPending)
      ensures loadedCount == old(loadedCount) && loadingProgress == old(loadingProgress)
    {
      timeoutPending := false;
    }
  }
}
