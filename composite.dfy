/** CompositeForce: a list of non-owning references to force objects, summed in
    list order. References are Dafny object references, so membership and
    removal go by identity, never by equal parameters. */
module Composite {
  import opened Vectors
  import opened Physics

  // ---- Identity search on a list (the iterator loop of removeForce) ----

  /** The position of the earliest entry equal to x, or |s| when there is none. */
  function FirstIndex<T(==)>(s: seq<T>, x: T): (i: nat)
    ensures i <= |s|
    ensures i < |s| ==> s[i] == x
    ensures forall j :: 0 <= j < i ==> s[j] != x
  {
    if s == [] then 0
    else if s[0] == x then 0
    else 1 + FirstIndex(s[1..], x)
  }

  /** The list with its earliest entry equal to x erased; unchanged when x is absent. */
  function RemoveFirst<T(==)>(s: seq<T>, x: T): seq<T> {
    var i := FirstIndex(s, x);
    if i == |s| then s else s[..i] + s[i + 1..]
  }

  /** Removal is characterised without FirstIndex: an absent entry leaves the
      list as it was, and otherwise one copy of x leaves the multiset of members. */
  lemma RemoveFirstSpec<T>(s: seq<T>, x: T)
    ensures x !in s ==> RemoveFirst(s, x) == s
    ensures x in s ==> |RemoveFirst(s, x)| == |s| - 1
    ensures multiset(RemoveFirst(s, x)) == multiset(s) - multiset{x}
  {
    var k := FirstIndex(s, x);
    if k == |s| {
      assert x !in s by {
        forall j | 0 <= j < |s| ensures s[j] != x { }
      }
      assert multiset(s)[x] == 0;
    } else {
      assert s == s[..k] + [x] + s[k + 1..];
      assert multiset(s) == multiset(s[..k]) + multiset{x} + multiset(s[k + 1..]);
    }
  }

  /** Exactly the entry at the earliest position holding x is erased, and the
      other entries keep their relative order. */
  lemma RemoveFirstAt<T>(s: seq<T>, x: T, i: nat)
    requires i < |s| && s[i] == x && x !in s[..i]
    ensures RemoveFirst(s, x) == s[..i] + s[i + 1..]
  {
  }

  /** Appending x and then removing x gives back the list when x was absent.
      When x was already present it is the EARLIER copy that goes, so the list
      comes back with that entry moved to the end: the same multiset, not the
      same order. */
  lemma AddThenRemove<T>(s: seq<T>, x: T)
    ensures x !in s ==> RemoveFirst(s + [x], x) == s
    ensures x in s ==> var i := FirstIndex(s, x);
      RemoveFirst(s + [x], x) == s[..i] + s[i + 1..] + [x]
    ensures multiset(RemoveFirst(s + [x], x)) == multiset(s)
  {
    var t := s + [x];
    RemoveFirstSpec(t, x);
    if x in s {
      AddThenRemovePresent(s, x);
    } else {
      AddThenRemoveAbsent(s, x);
    }
  }

  lemma AddThenRemoveAbsent<T>(s: seq<T>, x: T)
    requires x !in s
    ensures RemoveFirst(s + [x], x) == s
  {
    var t := s + [x];
    assert t[..|s|] == s;
    RemoveFirstAt(t, x, |s|);
    assert t[|s| + 1..] == [];
  }

  lemma AddThenRemovePresent<T>(s: seq<T>, x: T)
    requires x in s
    ensures var i := FirstIndex(s, x);
      RemoveFirst(s + [x], x) == s[..i] + s[i + 1..] + [x]
  {
    var t := s + [x];
    var i := FirstIndex(s, x);
    assert i < |s|;
    assert t[..i] == s[..i];
    assert x !in s[..i];
    RemoveFirstAt(t, x, i);
    assert t[i + 1..] == s[i + 1..] + [x];
  }

  // ---- The laws a member list refers to ----

  /** The current laws of the members, in list order (the forces read through
      the stored pointers at the time of the call). */
  function LawsOf(fs: seq<Force>): (laws: seq<ForceLaw>)
    reads set f | f in fs
    ensures |laws| == |fs|
    ensures forall i :: 0 <= i < |fs| ==> laws[i] == fs[i].law
  {
    if fs == [] then [] else LawsOf(fs[..|fs| - 1]) + [fs[|fs| - 1].law]
  }

  /** Every member can be evaluated at p (no inverse-square member sits on its anchor). */
  predicate AllDefined(laws: seq<ForceLaw>, p: Vec3, length: Vec3 -> real) {
    forall i :: 0 <= i < |laws| ==> Defined(laws[i], p, length)
  }

  // ---- In-order sums (the specification of the two summing loops) ----

  /** The zero vector plus each member's force, first member first. */
  function TotalForce(laws: seq<ForceLaw>, p: Vec3, v: Vec3, t: real, length: Vec3 -> real): Vec3
    requires AllDefined(laws, p, length)
  {
    if laws == [] then Zero
    else Add(TotalForce(laws[..|laws| - 1], p, v, t, length), Physics.ComputeForce(laws[|laws| - 1], p, v, t, length))
  }

  /** Zero plus each member's energy, first member first. */
  function TotalEnergy(laws: seq<ForceLaw>, p: Vec3, v: Vec3, t: real, length: Vec3 -> real): real
    requires AllDefined(laws, p, length)
  {
    if laws == [] then 0.0
    else TotalEnergy(laws[..|laws| - 1], p, v, t, length) + Physics.ComputeEnergy(laws[|laws| - 1], p, v, t, length)
  }

  /** A sub-list of evaluable members is evaluable. */
  lemma AllDefinedOfConcat(a: seq<ForceLaw>, b: seq<ForceLaw>, p: Vec3, length: Vec3 -> real)
    requires AllDefined(a + b, p, length)
    ensures AllDefined(a, p, length) && AllDefined(b, p, length)
  {
    forall i | 0 <= i < |a| ensures Defined(a[i], p, length) {
      assert (a + b)[i] == a[i];
    }
    forall i | 0 <= i < |b| ensures Defined(b[i], p, length) {
      assert (a + b)[|a| + i] == b[i];
    }
  }

  /** The force sum over a concatenation is the sum of the two force sums. */
  lemma {:induction false} TotalForceOfConcat(a: seq<ForceLaw>, b: seq<ForceLaw>, p: Vec3, v: Vec3, t: real, length: Vec3 -> real)
    requires AllDefined(a + b, p, length)
    ensures AllDefined(a, p, length) && AllDefined(b, p, length)
    ensures TotalForce(a + b, p, v, t, length) == Add(TotalForce(a, p, v, t, length), TotalForce(b, p, v, t, length))
    decreases |b|
  {
    AllDefinedOfConcat(a, b, p, length);
    if b == [] {
      assert a + b == a;
    } else {
      var b' := b[..|b| - 1];
      assert b == b' + [b[|b| - 1]];
      assert (a + b)[..|a + b| - 1] == a + b';
      assert (a + b)[|a + b| - 1] == b[|b| - 1];
      AllDefinedOfConcat(b', [b[|b| - 1]], p, length);
      TotalForceOfConcat(a, b', p, v, t, length);
      AddAssociative(TotalForce(a, p, v, t, length), TotalForce(b', p, v, t, length),
        Physics.ComputeForce(b[|b| - 1], p, v, t, length));
    }
  }

  /** The energy sum over a concatenation is the sum of the two energy sums. */
  lemma {:induction false} TotalEnergyOfConcat(a: seq<ForceLaw>, b: seq<ForceLaw>, p: Vec3, v: Vec3, t: real, length: Vec3 -> real)
    requires AllDefined(a + b, p, length)
    ensures AllDefined(a, p, length) && AllDefined(b, p, length)
    ensures TotalEnergy(a + b, p, v, t, length) == TotalEnergy(a, p, v, t, length) + TotalEnergy(b, p, v, t, length)
    decreases |b|
  {
    AllDefinedOfConcat(a, b, p, length);
    if b == [] {
      assert a + b == a;
    } else {
      var b' := b[..|b| - 1];
      assert b == b' + [b[|b| - 1]];
      assert (a + b)[..|a + b| - 1] == a + b';
      assert (a + b)[|a + b| - 1] == b[|b| - 1];
      AllDefinedOfConcat(b', [b[|b| - 1]], p, length);
      TotalEnergyOfConcat(a, b', p, v, t, length);
    }
  }

  /** Summation order does not matter: taking the member at i out of the list
      and putting it back at the end leaves both sums unchanged. */
  lemma TotalsOfMoveToEnd(laws: seq<ForceLaw>, i: nat, p: Vec3, v: Vec3, t: real, length: Vec3 -> real)
    requires i < |laws|
    requires AllDefined(laws, p, length)
    ensures AllDefined(laws[..i] + laws[i + 1..] + [laws[i]], p, length)
    ensures TotalForce(laws[..i] + laws[i + 1..] + [laws[i]], p, v, t, length) == TotalForce(laws, p, v, t, length)
    ensures TotalEnergy(laws[..i] + laws[i + 1..] + [laws[i]], p, v, t, length) == TotalEnergy(laws, p, v, t, length)
  {
    var front, mid, back := laws[..i], [laws[i]], laws[i + 1..];
    assert laws == (front + mid) + back;
    assert laws[..i] + laws[i + 1..] + [laws[i]] == front + (back + mid);
    AllDefinedOfConcat(front + mid, back, p, length);
    AllDefinedOfConcat(front, mid, p, length);
    AllDefinedOfSplice(front, mid, back, p, length);
    ForceMoveToEnd(front, mid, back, p, v, t, length);
    EnergyMoveToEnd(front, mid, back, p, v, t, length);
  }

  lemma AllDefinedOfSplice(a: seq<ForceLaw>, b: seq<ForceLaw>, c: seq<ForceLaw>, p: Vec3, length: Vec3 -> real)
    requires AllDefined(a, p, length) && AllDefined(b, p, length) && AllDefined(c, p, length)
    ensures AllDefined(a + (c + b), p, length) && AllDefined(c + b, p, length)
  {
  }

  lemma ForceMoveToEnd(a: seq<ForceLaw>, b: seq<ForceLaw>, c: seq<ForceLaw>, p: Vec3, v: Vec3, t: real, length: Vec3 -> real)
    requires AllDefined(a, p, length) && AllDefined(b, p, length) && AllDefined(c, p, length)
    requires AllDefined((a + b) + c, p, length) && AllDefined(a + (c + b), p, length)
    ensures TotalForce(a + (c + b), p, v, t, length) == TotalForce((a + b) + c, p, v, t, length)
  {
    var fa, fb, fc := TotalForce(a, p, v, t, length), TotalForce(b, p, v, t, length), TotalForce(c, p, v, t, length);
    TotalForceOfConcat(a + b, c, p, v, t, length);
    TotalForceOfConcat(a, b, p, v, t, length);
    TotalForceOfConcat(a, c + b, p, v, t, length);
    TotalForceOfConcat(c, b, p, v, t, length);
    assert TotalForce((a + b) + c, p, v, t, length) == Add(Add(fa, fb), fc);
    assert TotalForce(a + (c + b), p, v, t, length) == Add(fa, Add(fc, fb));
  }

  lemma EnergyMoveToEnd(a: seq<ForceLaw>, b: seq<ForceLaw>, c: seq<ForceLaw>, p: Vec3, v: Vec3, t: real, length: Vec3 -> real)
    requires AllDefined(a, p, length) && AllDefined(b, p, length) && AllDefined(c, p, length)
    requires AllDefined((a + b) + c, p, length) && AllDefined(a + (c + b), p, length)
    ensures TotalEnergy(a + (c + b), p, v, t, length) == TotalEnergy((a + b) + c, p, v, t, length)
  {
    TotalEnergyOfConcat(a + b, c, p, v, t, length);
    TotalEnergyOfConcat(a, b, p, v, t, length);
    TotalEnergyOfConcat(a, c + b, p, v, t, length);
    TotalEnergyOfConcat(c, b, p, v, t, length);
  }

  /** The laws of two lists joined are the laws of the first followed by those
      of the second. */
  lemma LawsOfConcat(a: seq<Force>, b: seq<Force>)
    ensures LawsOf(a + b) == LawsOf(a) + LawsOf(b)
  {
    assert forall i :: 0 <= i < |a| ==> (a + b)[i] == a[i];
    assert forall i :: 0 <= i < |b| ==> (a + b)[|a| + i] == b[i];
  }

  /** addForce appends one reference: both sums grow by exactly that member's
      contribution, so a force added twice is counted twice. */
  lemma AddedForceCounted(fs: seq<Force>, f: Force, p: Vec3, v: Vec3, t: real, length: Vec3 -> real)
    requires AllDefined(LawsOf(fs + [f]), p, length)
    ensures AllDefined(LawsOf(fs), p, length) && Defined(f.law, p, length)
    ensures TotalForce(LawsOf(fs + [f]), p, v, t, length)
         == Add(TotalForce(LawsOf(fs), p, v, t, length), Physics.ComputeForce(f.law, p, v, t, length))
    ensures TotalEnergy(LawsOf(fs + [f]), p, v, t, length)
         == TotalEnergy(LawsOf(fs), p, v, t, length) + Physics.ComputeEnergy(f.law, p, v, t, length)
  {
    LawsOfConcat(fs, [f]);
    assert LawsOf(fs + [f])[..|fs|] == LawsOf(fs);
    assert LawsOf(fs + [f])[|fs|] == f.law;
  }

  /** Adding a force and then removing it (by identity) restores both sums,
      whether or not that force was already a member. */
  lemma AddThenRemoveRestoresTotals(fs: seq<Force>, f: Force, p: Vec3, v: Vec3, t: real, length: Vec3 -> real)
    requires AllDefined(LawsOf(fs), p, length)
    ensures AllDefined(LawsOf(RemoveFirst(fs + [f], f)), p, length)
    ensures TotalForce(LawsOf(RemoveFirst(fs + [f], f)), p, v, t, length) == TotalForce(LawsOf(fs), p, v, t, length)
    ensures TotalEnergy(LawsOf(RemoveFirst(fs + [f], f)), p, v, t, length) == TotalEnergy(LawsOf(fs), p, v, t, length)
  {
    AddThenRemove(fs, f);
    if f in fs {
      var i := FirstIndex(fs, f);
      var laws := LawsOf(fs);
      LawsOfConcat(fs[..i] + fs[i + 1..], [f]);
      LawsOfConcat(fs[..i], fs[i + 1..]);
      assert LawsOf(fs[..i]) == laws[..i];
      assert LawsOf(fs[i + 1..]) == laws[i + 1..];
      assert LawsOf(RemoveFirst(fs + [f], f)) == laws[..i] + laws[i + 1..] + [laws[i]];
      TotalsOfMoveToEnd(laws, i, p, v, t, length);
    }
  }

  /** The aggregate force object. */
  class CompositeForce {
    var forces: seq<Force>

    constructor ()
      ensures forces == []
    {
      forces := [];
    }

    /** addForce: push the reference at the end; duplicates are allowed. */
    method AddForce(force: Force)
      modifies this
      ensures forces == old(forces) + [force]
    {
      forces := forces + [force];
    }

    /** removeForce: erase the first entry that is this very object, if any. */
    method RemoveForce(force: Force)
      modifies this
      ensures forces == RemoveFirst(old(forces), force)
    {
      var i := 0;
      while i < |forces|
        invariant 0 <= i <= |forces|
        invariant forces == old(forces)
        invariant forall j :: 0 <= j < i ==> forces[j] != force
      {
        if forces[i] == force {
          forces := forces[..i] + forces[i + 1..];
          return;
        }
        i := i + 1;
      }
    }

    /** computeForce: the zero vector, then each member's force added in list order. */
    method ComputeForce(p: Vec3, v: Vec3, t: real, length: Vec3 -> real) returns (total: Vec3)
      requires AllDefined(LawsOf(forces), p, length)
      ensures total == TotalForce(LawsOf(forces), p, v, t, length)
      ensures forces == [] ==> total == Zero
    {
      ghost var laws := LawsOf(forces);
      total := Zero;
      for i := 0 to |forces|
        invariant AllDefined(laws[..i], p, length)
        invariant total == TotalForce(laws[..i], p, v, t, length)
      {
        assert laws[..i + 1][..i] == laws[..i];
        total := Add(total, Physics.ComputeForce(forces[i].law, p, v, t, length));
      }
      assert laws[..|forces|] == laws;
    }

    /** computeEnergy: zero, then each member's energy added in list order. */
    method ComputeEnergy(p: Vec3, v: Vec3, t: real, length: Vec3 -> real) returns (total: real)
      requires AllDefined(LawsOf(forces), p, length)
      ensures total == TotalEnergy(LawsOf(forces), p, v, t, length)
      ensures forces == [] ==> total == 0.0
    {
      ghost var laws := LawsOf(forces);
      total := 0.0;
      for i := 0 to |forces|
        invariant AllDefined(laws[..i], p, length)
        invariant total == TotalEnergy(laws[..i], p, v, t, length)
      {
        assert laws[..i + 1][..i] == laws[..i];
        total := total + Physics.ComputeEnergy(forces[i].law, p, v, t, length);
      }
      assert laws[..|forces|] == laws;
    }
  }
}
