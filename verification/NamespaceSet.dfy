/** Bounded, normalized sets of delivery namespaces, where `*` grants everything.
  */
module NamespaceSet {
  import opened Text
  import MutationIdentity

  const MAX_NAMESPACES: nat := 1024
  const MAX_NAMESPACE_BYTES: nat := 256
  const ANY := "*"

  predicate UsableName(name: string) {
    && 0 < |name| <= MAX_NAMESPACE_BYTES
    && forall i: nat | i < |name| :: !MutationIdentity.ControlAt(name, i)
  }

  /** Strictly increasing in Rust's string order. */
  predicate Sorted(names: seq<string>) {
    forall i, j | 0 <= i < j < |names| :: Less(names[i], names[j])
  }

  predicate Canonical(names: seq<string>) {
    && names != [] && Sorted(names)
    && (forall i | 0 <= i < |names| :: UsableName(names[i]))
    && (ANY in names ==> names == [ANY])
  }

  /** What a list of names means. */
  predicate Grants(names: seq<string>, x: string) {
    ANY in names || x in names
  }

  // ---- Normalization -----------------------------------------------------

  /** Inserts a name at its place; an equal name is already there. */
  method Insert(names: seq<string>, name: string) returns (r: seq<string>)
    requires Sorted(names)
    ensures Sorted(r)
    ensures forall x :: x in r <==> x == name || x in names
  {
    hide Less;
    var k := 0;
    while k < |names| && Less(names[k], name)
      invariant 0 <= k <= |names|
      invariant forall i | 0 <= i < k :: Less(names[i], name)
    {
      k := k + 1;
    }
    if k < |names| && names[k] == name {
      return names;
    }
    r := names[..k] + [name] + names[k..];
    forall i, j | 0 <= i < j < |r| ensures Less(r[i], r[j]) {
      if k < |names| {
        LessTotal(names[k], name);
        if j > k + 1 {
          LessTransitive(name, names[k], names[j - 1]);
        }
      }
    }
    assert names == names[..k] + names[k..];
  }

  /** `NamespaceSet::try_new`. */
  method TryNew(namespaces: seq<string>) returns (r: Option<seq<string>>)
    ensures r.Some? <==>
              0 < |namespaces| <= MAX_NAMESPACES && forall i | 0 <= i < |namespaces| :: UsableName(namespaces[i])
    ensures r.Some? ==> Canonical(r.value) && forall x :: Grants(r.value, x) <==> Grants(namespaces, x)
  {
    hide Less, UsableName;
    if namespaces == [] || |namespaces| > MAX_NAMESPACES {
      return None;
    }
    var sorted: seq<string>, n := [], 0;
    while n < |namespaces|
      invariant 0 <= n <= |namespaces| && Sorted(sorted)
      invariant forall i | 0 <= i < n :: UsableName(namespaces[i])
      invariant forall x :: x in sorted <==> x in namespaces[..n]
    {
      if !UsableName(namespaces[n]) {
        return None;
      }
      sorted := Insert(sorted, namespaces[n]);
      n := n + 1;
    }
    assert namespaces[..n] == namespaces;
    assert namespaces[0] in sorted;
    if ANY in sorted {
      var i :| 0 <= i < |namespaces| && namespaces[i] == ANY;
      return Some([ANY]);
    }
    forall i | 0 <= i < |sorted| ensures UsableName(sorted[i]) {
      assert sorted[i] in namespaces;
    }
    return Some(sorted);
  }

  // ---- Coverage ----------------------------------------------------------

  method BinarySearch(names: seq<string>, x: string) returns (found: bool)
    requires Sorted(names)
    ensures found <==> x in names
  {
    hide Less;
    var low, high := 0, |names|;
    while low < high
      invariant 0 <= low <= high <= |names|
      invariant forall i | 0 <= i < low :: Less(names[i], x)
      invariant forall i | high <= i < |names| :: Less(x, names[i])
    {
      var mid := (low + high) / 2;
      if names[mid] == x {
        return true;
      }
      LessTotal(names[mid], x);
      if Less(names[mid], x) {
        forall i | 0 <= i < mid { LessTransitive(names[i], names[mid], x); }
        low := mid + 1;
      } else {
        forall i | mid < i < |names| { LessTransitive(x, names[mid], names[i]); }
        high := mid;
      }
    }
    LessIrreflexive(x);
    return false;
  }

  predicate Allows(grant: seq<string>, required: seq<string>) {
    || (grant != [] && grant[0] == ANY)
    || forall i | 0 <= i < |required| :: required[i] != ANY && required[i] in grant
  }

  /** `NamespaceSet::allows`. */
  method CheckAllows(grant: seq<string>, required: seq<string>) returns (allowed: bool)
    requires Sorted(grant)
    ensures allowed == Allows(grant, required)
  {
    if grant != [] && grant[0] == ANY {
      return true;
    }
    for n := 0 to |required|
      invariant forall i | 0 <= i < n :: required[i] != ANY && required[i] in grant
    {
      if required[n] == ANY {
        return false;
      }
      var found := BinarySearch(grant, required[n]);
      if !found {
        return false;
      }
    }
    return true;
  }

  function Longest(names: seq<string>): nat {
    if names == [] then 0
    else
      var rest := Longest(names[1..]);
      if |names[0]| > rest then |names[0]| else rest
  }

  lemma {:induction false} LongestBounds(names: seq<string>, x: string)
    requires x in names
    ensures |x| <= Longest(names)
  {
    if names[0] != x {
      LongestBounds(names[1..], x);
    }
  }

  /** No finite list names everything. */
  lemma UnnamedNamespace(names: seq<string>) returns (x: string)
    ensures x !in names
  {
    x := seq(Longest(names) + 1, _ => 'a');
    if x in names {
      LongestBounds(names, x);
    }
  }

  /** A grant allows a requirement exactly when it covers its meaning. */
  lemma AllowsIsCoverage(grant: seq<string>, required: seq<string>)
    requires Canonical(grant) && Canonical(required)
    ensures Allows(grant, required) <==> forall x :: Grants(required, x) ==> Grants(grant, x)
  {
    hide Less, UsableName;
    if Allows(grant, required) {
      forall x | Grants(required, x) ensures Grants(grant, x) {
        if grant[0] != ANY {
          assert forall i | 0 <= i < |required| :: required[i] != ANY;
        }
      }
    } else if forall x :: Grants(required, x) ==> Grants(grant, x) {
      var i :| 0 <= i < |required| && !(required[i] != ANY && required[i] in grant);
      var x := UnnamedNamespace(grant);
      assert Grants(required, required[i]);
      assert required[i] == ANY ==> Grants(required, x);
    }
  }

  lemma {:induction false} SortedUnique(a: seq<string>, b: seq<string>)
    requires Sorted(a) && Sorted(b) && forall x :: x in a <==> x in b
    ensures a == b
  {
    hide Less;
    if a != [] && b != [] {
      var x, y := a[0], b[0];
      assert y in a && x in b;
      LessIrreflexive(x);
      if x != y {
        var i :| 0 <= i < |a| && a[i] == y;
        var j :| 0 <= j < |b| && b[j] == x;
        assert Less(x, y) && Less(y, x);
        LessTransitive(x, y, x);
      }
      forall z ensures z in a[1..] <==> z in b[1..] {
        TailMember(a, z);
        TailMember(b, z);
      }
      SortedUnique(a[1..], b[1..]);
      assert a == [x] + a[1..] && b == [y] + b[1..];
    } else {
      EmptyWithoutMembers(a);
      EmptyWithoutMembers(b);
    }
  }

  lemma EmptyWithoutMembers(a: seq<string>)
    ensures (forall x :: x !in a) ==> a == []
  {
    if a != [] {
      assert a[0] in a;
    }
  }

  lemma TailMember(a: seq<string>, z: string)
    requires Sorted(a) && a != []
    ensures z in a[1..] <==> z in a && z != a[0]
  {
    hide Less;
    LessIrreflexive(a[0]);
    if z in a[1..] {
      var i :| 0 <= i < |a[1..]| && a[1..][i] == z;
      assert Less(a[0], a[i + 1]);
    }
    assert a == [a[0]] + a[1..];
  }

  /** Normal form: sets that mean the same are equal, so comparing the recorded
      requirement with `==` compares authority. */
  lemma CanonicalUnique(a: seq<string>, b: seq<string>)
    requires Canonical(a) && Canonical(b) && forall x :: Grants(a, x) <==> Grants(b, x)
    ensures a == b
  {
    hide Less, UsableName;
    var x := UnnamedNamespace(a);
    var y := UnnamedNamespace(b);
    assert Grants(a, x) <==> Grants(b, x);
    assert Grants(a, y) <==> Grants(b, y);
    if ANY !in a && ANY !in b {
      forall z ensures z in a <==> z in b {
        assert Grants(a, z) <==> Grants(b, z);
      }
      SortedUnique(a, b);
    }
  }
}
