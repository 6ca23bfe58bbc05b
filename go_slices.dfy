/** The batch deleter's key list as Go actually stores it: a slice, that is a
    length over a shared backing array. Clone copies the slice header, so a clone
    and its original share the array, and append writes into it in place while
    capacity lasts. */
module GoSliceDeleter {

  /** The capacity Go's append grows a slice of strings to while the result stays
      within 16 elements: the needed length when that is more than double the old
      capacity, else double. Beyond that Go rounds up to its allocator's size
      classes, which this does not model. */
  function GrowCap(oldCap: nat, needed: nat): nat
  {
    if needed > 2 * oldCap then needed else 2 * oldCap
  }

  /** BatchDeleterRedis with its `keys` slice kept as Go keeps it. */
  class SliceDeleter {
    var backing: array<string>
    var len: nat

    ghost predicate Valid()
      reads this
    {
      len <= backing.Length
    }

    /** The keys this deleter sees. */
    function Keys(): seq<string>
      reads this, backing
      requires Valid()
    {
      backing[..len]
    }

    /** A nil slice. */
    constructor ()
      ensures Valid() && Keys() == [] && backing.Length == 0 && fresh(backing)
    {
      backing := new string[0];
      len := 0;
    }

    /** Clone as written: the new deleter gets the same slice header. */
    method Clone() returns (c: SliceDeleter)
      requires Valid()
      ensures fresh(c) && c.Valid()
      ensures c.backing == backing && c.len == len
    {
      c := new SliceDeleter();
      c.backing := backing;
      c.len := len;
    }

    /** AddKeys as written: Go's append, in place while the backing array has room. */
    method AddKeys(ks: seq<string>)
      requires Valid()
      modifies this, backing
      ensures Valid() && len == old(len) + |ks|
      ensures Keys() == old(Keys()) + ks
      ensures old(len) + |ks| <= old(backing.Length) ==>
        backing == old(backing) &&
        backing[..] == old(backing[..])[..old(len)] + ks + old(backing[..])[old(len) + |ks|..]
      ensures old(len) + |ks| > old(backing.Length) ==>
        fresh(backing) && unchanged(old(backing)) && backing.Length >= old(len) + |ks|
      ensures old(len) + |ks| > old(backing.Length) && GrowCap(old(backing.Length), old(len) + |ks|) <= 16 ==>
        backing.Length == GrowCap(old(backing.Length), old(len) + |ks|)
    {
      if len + |ks| <= backing.Length {
        forall j | 0 <= j < |ks| {
          backing[len + j] := ks[j];
        }
      } else {
        var grown := new string[GrowCap(backing.Length, len + |ks|)];
        forall j | 0 <= j < len {
          grown[j] := backing[j];
        }
        forall j | 0 <= j < |ks| {
          grown[len + j] := ks[j];
        }
        backing := grown;
      }
      len := len + |ks|;
    }
  }

  /** Three chained DelUsersInfo-style steps (clone, then add one key) leave a
      list of three keys in an array with room for four. The last step outgrows
      the array it shared with the handle before it, so that handle still sees
      two keys (`before`). */
  method ChainOfThree() returns (d: SliceDeleter, before: seq<string>)
    ensures fresh(d) && fresh(d.backing) && d.Valid()
    ensures d.Keys() == ["a", "b", "c"] && d.backing.Length == 4
    ensures before == ["a", "b"]
  {
    var root := new SliceDeleter();
    var d1 := root.Clone();
    d1.AddKeys(["a"]);
    var d2 := d1.Clone();
    d2.AddKeys(["b"]);
    d := d2.Clone();
    d.AddKeys(["c"]);
    before := d2.Keys();
  }

  /** Two clones taken from the list ChainOfThree builds write their keys into the
      same array cell: the first clone ends up holding the second clone's key
      instead of its own, while the list they were cloned from still shows three. */
  method SiblingClonesCollide() returns (first: seq<string>, second: seq<string>, original: seq<string>)
    ensures original == ["a", "b", "c"]
    ensures first == ["a", "b", "c", "q"]
    ensures second == ["a", "b", "c", "q"]
  {
    var d, _ := ChainOfThree();
    var x := d.Clone();
    x.AddKeys(["p"]);
    var y := d.Clone();
    y.AddKeys(["q"]);
    first, second, original := x.Keys(), y.Keys(), d.Keys();
  }
}
