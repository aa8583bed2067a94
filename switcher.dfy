/** Component_Switcher: number key i makes component i - 1 the only enabled
    one among an array of behaviours. */
module Switcher {
  import opened Unity

  /** The position of the last occurrence of `x` in `s`. When the same
      behaviour sits in the array more than once, its final `enabled` flag is
      the one written at this position. */
  function LastIndex<T(==)>(s: seq<T>, x: T): (r: nat)
    requires x in s
    ensures r < |s| && s[r] == x
    ensures forall j :: r < j < |s| ==> s[j] != x
  {
    if s[|s| - 1] == x then |s| - 1
    else
      assert x in s[..|s| - 1] by {
        var k :| 0 <= k < |s| && s[k] == x;
        assert k < |s| - 1;
        assert s[..|s| - 1][k] == x;
      }
      LastIndex(s[..|s| - 1], x)
  }

  /** Appending an element moves the last occurrence of `x` only when the
      element is `x` itself. */
  lemma LastIndexSnoc<T>(s: seq<T>, y: T, x: T)
    requires x in s + [y]
    ensures x == y ==> LastIndex(s + [y], x) == |s|
    ensures x != y ==> x in s && LastIndex(s + [y], x) == LastIndex(s, x)
  {
    if x != y {
      var r := LastIndex(s + [y], x);
      assert s[r] == x;
      var q := LastIndex(s, x);
      assert (s + [y])[q] == x;
    }
  }

  /** No behaviour occurs twice. */
  predicate Distinct<T(==)>(s: seq<T>) {
    forall i, j :: 0 <= i < j < |s| ==> s[i] != s[j]
  }

  /** The component indices `Update` activates when the number keys in
      `keysDown` go down, in call order: key i (1 <= i <= m) selects index
      i - 1. They are in range, strictly increasing, and exactly those of
      the keys that went down. */
  function KeyIndices(keysDown: set<int>, m: nat): (r: seq<int>)
    ensures forall j :: 0 <= j < |r| ==> 0 <= r[j] < m
    ensures forall i, j :: 0 <= i < j < |r| ==> r[i] < r[j]
    ensures forall x :: x in r <==> 0 <= x < m && x + 1 in keysDown
  {
    if m == 0 then []
    else KeyIndices(keysDown, m - 1) + (if m in keysDown then [m - 1] else [])
  }

  /** The highest number key in 1..m that went down, or 0 if none did. */
  function HighestKeyDown(keysDown: set<int>, m: nat): (r: nat)
    ensures r <= m
    ensures r > 0 ==> r in keysDown
    ensures forall i :: r < i <= m ==> i !in keysDown
  {
    if m == 0 then 0
    else if m in keysDown then m
    else HighestKeyDown(keysDown, m - 1)
  }

  /** Some index is activated exactly when some key went down, and the last
      one activated belongs to the highest key. */
  lemma {:induction false} LastActivatedIsHighest(keysDown: set<int>, m: nat)
    ensures |KeyIndices(keysDown, m)| > 0 <==> HighestKeyDown(keysDown, m) > 0
    ensures |KeyIndices(keysDown, m)| > 0 ==>
      KeyIndices(keysDown, m)[|KeyIndices(keysDown, m)| - 1] == HighestKeyDown(keysDown, m) - 1
  {
    if m > 0 && m !in keysDown {
      LastActivatedIsHighest(keysDown, m - 1);
    }
  }

  class ComponentSwitcher {
    const components: array<Behaviour>

    constructor (components: array<Behaviour>)
      ensures this.components == components
    {
      this.components := components;
    }

    /** The behaviours the switcher toggles. */
    ghost function Members(): set<Behaviour>
      reads components
    {
      set i | 0 <= i < components.Length :: components[i]
    }

    /** The `enabled` flags in array order. */
    ghost function Flags(): (r: seq<bool>)
      reads components, Members()
      ensures |r| == components.Length
      ensures forall i :: 0 <= i < components.Length ==> r[i] == components[i].enabled
    {
      seq(components.Length, i reads components, Members() requires 0 <= i < components.Length => components[i].enabled)
    }

    /** Each behaviour is enabled exactly when its last position in the array
        is `index`. */
    ghost predicate ActiveOnly(index: int)
      reads components, Members()
    {
      forall i :: 0 <= i < components.Length ==>
        components[i].enabled == (LastIndex(components[..], components[i]) == index)
    }

    /** `ActivateOnly(indexToActivate)`: walk the array, enabling the element
        at `indexToActivate` and disabling every other one. With distinct
        elements exactly that one is left enabled (none when the index is out
        of range); a second call changes nothing. */
    method ActivateOnly(indexToActivate: int)
      modifies Members()
      ensures components[..] == old(components[..])
      ensures ActiveOnly(indexToActivate)
      ensures Distinct(components[..]) ==>
        forall i :: 0 <= i < components.Length ==> components[i].enabled == (i == indexToActivate)
      ensures !(0 <= indexToActivate < components.Length) ==>
        forall i :: 0 <= i < components.Length ==> !components[i].enabled
      ensures old(ActiveOnly(indexToActivate)) ==> Flags() == old(Flags())
    {
      ghost var s := components[..];
      for i := 0 to components.Length
        invariant forall j :: 0 <= j < i ==> s[j].enabled == (LastIndex(s[..i], s[j]) == indexToActivate)
        invariant forall j :: i <= j < |s| && s[j] !in s[..i] ==> s[j].enabled == old(s[j].enabled)
      {
        components[i].enabled := i == indexToActivate;
        assert s[..i + 1] == s[..i] + [s[i]];
        forall j | 0 <= j <= i
          ensures s[j].enabled == (LastIndex(s[..i + 1], s[j]) == indexToActivate)
        {
          LastIndexSnoc(s[..i], s[i], s[j]);
        }
      }
      assert s[..|s|] == s;
      forall i | 0 <= i < |s| && Distinct(s)
        ensures LastIndex(s, s[i]) == i
      {
      }
    }

    /** `Update`: for each key 1..n that went down this frame, in increasing
        order, activate component key - 1. The ghost result lists the indices
        activated, in call order. The highest key that went down decides the
        outcome; with none, no flag changes. */
    method Update(keysDown: set<int>) returns (ghost activated: seq<int>)
      modifies Members()
      ensures activated == KeyIndices(keysDown, components.Length)
      ensures HighestKeyDown(keysDown, components.Length) > 0 ==>
        ActiveOnly(HighestKeyDown(keysDown, components.Length) - 1)
      ensures HighestKeyDown(keysDown, components.Length) == 0 ==> Flags() == old(Flags())
    {
      activated := [];
      for key := 1 to components.Length + 1
        invariant activated == KeyIndices(keysDown, key - 1)
        invariant HighestKeyDown(keysDown, key - 1) > 0 ==> ActiveOnly(HighestKeyDown(keysDown, key - 1) - 1)
        invariant HighestKeyDown(keysDown, key - 1) == 0 ==> Flags() == old(Flags())
      {
        if key in keysDown {
          ActivateOnly(key - 1);
          activated := activated + [key - 1];
          assert HighestKeyDown(keysDown, key) == key;
        } else {
          assert HighestKeyDown(keysDown, key) == HighestKeyDown(keysDown, key - 1);
        }
      }
    }
  }
}
