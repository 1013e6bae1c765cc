/** Values shared by all models: optional results, Go's machine integers, and counting threads by state. */
module Common {

  datatype Option<+T> = None | Some(value: T)

  /** Go's uint on the 64-bit platforms the library targets. */
  const UINT_MOD: nat := 0x1_0000_0000_0000_0000

  type uint = n: nat | n < UINT_MOD

  const UINT32_MOD: nat := 0x1_0000_0000

  type uint32 = n: nat | n < UINT32_MOD

  /** The strictly increasing sequences of naturals. */
  ghost predicate Increasing(s: seq<nat>) {
    forall i, j :: 0 <= i < j < |s| ==> s[i] < s[j]
  }

  ghost function Members(s: seq<nat>): set<nat> {
    set x | x in s
  }

  lemma MembersOfTail(s: seq<nat>)
    requires Increasing(s) && s != []
    ensures Members(s[1..]) == Members(s) - {s[0]}
    ensures s[0] in Members(s)
    ensures forall x :: x in Members(s[1..]) ==> s[0] < x
    ensures Increasing(s[1..])
  {
    assert s == [s[0]] + s[1..];
  }

  lemma MembersOfExtension(s: seq<nat>, x: nat)
    requires Increasing(s) && forall y :: y in Members(s) ==> y < x
    ensures Members(s + [x]) == Members(s) + {x}
    ensures Increasing(s + [x])
  {
    assert forall i :: 0 <= i < |s| ==> s[i] in Members(s);
  }

  /** The sequence without the first occurrence of x. */
  function Without(s: seq<nat>, x: nat): (r: seq<nat>)
    ensures |r| <= |s|
  {
    if s == [] then []
    else if s[0] == x then s[1..]
    else [s[0]] + Without(s[1..], x)
  }

  lemma {:induction false} MembersWithout(s: seq<nat>, x: nat)
    requires Increasing(s)
    ensures Members(Without(s, x)) == Members(s) - {x}
    ensures Increasing(Without(s, x))
  {
    if s == [] {
    } else {
      MembersOfTail(s);
      if s[0] != x {
        MembersWithout(s[1..], x);
        assert Members(Without(s, x)) == {s[0]} + Members(Without(s[1..], x));
        IncreasingFront(s[0], Without(s[1..], x));
      }
    }
  }

  lemma IncreasingFront(x: nat, s: seq<nat>)
    requires Increasing(s) && forall y :: y in Members(s) ==> x < y
    ensures Increasing([x] + s)
  {
    forall i | 0 <= i < |s| ensures x < s[i] {
      assert s[i] in Members(s);
    }
  }

  lemma {:induction false} SubsetCount(a: set<nat>, b: set<nat>)
    requires a <= b
    ensures |a| <= |b|
  {
    if a == {} {
    } else {
      var x :| x in a;
      SubsetCount(a - {x}, b - {x});
    }
  }
}
