/** The collision policy of the registry: a name already taken gets the suffix
    `-重名n` with the smallest counter n >= 1 that is still free. */
module Naming {
  import opened GoText

  const DUPLICATE_MARK: string := "-重名"

  /** `name` with duplicate counter n (fmt "%s-重名%d"). */
  function DupName(name: string, n: nat): string {
    name + DUPLICATE_MARK + Decimal(n)
  }

  /** Different counters give different names. */
  lemma DupNameInjective(name: string, a: nat, b: nat)
    requires DupName(name, a) == DupName(name, b)
    ensures a == b
  {
    var p := name + DUPLICATE_MARK;
    assert DupName(name, a)[|p|..] == Decimal(a);
    assert DupName(name, b)[|p|..] == Decimal(b);
    DecimalInjective(a, b);
  }

  /** The duplicate names with counters 1..n. */
  ghost function DupNames(name: string, n: nat): set<string> {
    set c: nat | 1 <= c <= n :: DupName(name, c)
  }

  lemma {:induction false} DupNamesSize(name: string, n: nat)
    ensures |DupNames(name, n)| == n
  {
    if n > 0 {
      DupNamesSize(name, n - 1);
      assert DupNames(name, n) == DupNames(name, n - 1) + {DupName(name, n)};
      if DupName(name, n) in DupNames(name, n - 1) {
        var c: nat :| 1 <= c <= n - 1 && DupName(name, c) == DupName(name, n);
        DupNameInjective(name, c, n);
      }
    }
  }

  lemma SubsetSize(a: set<string>, b: set<string>)
    requires a <= b
    ensures |a| <= |b|
  {
    assert b == a + (b - a);
  }

  /** When counters 1..n-1 are all taken, the next counter is at most |taken| + 1. */
  lemma CounterBound(taken: set<string>, name: string, n: nat)
    requires n >= 1
    requires forall c: nat :: 1 <= c < n ==> DupName(name, c) in taken
    ensures n - 1 <= |taken|
  {
    DupNamesSize(name, n - 1);
    SubsetSize(DupNames(name, n - 1), taken);
  }

  /** The first duplicate name from counter n on that is not taken. */
  function FirstFreeFrom(taken: set<string>, name: string, n: nat): string
    requires n >= 1
    requires forall c: nat :: 1 <= c < n ==> DupName(name, c) in taken
    decreases |taken| + 1 - n
  {
    CounterBound(taken, name, n);
    if DupName(name, n) !in taken then DupName(name, n)
    else
      CounterBound(taken, name, n + 1);
      FirstFreeFrom(taken, name, n + 1)
  }

  /** The name the policy gives `name` while the names in `taken` are in use. */
  function FirstFree(taken: set<string>, name: string): string {
    if name !in taken then name else FirstFreeFrom(taken, name, 1)
  }

  /** `key` is `name` itself when free, otherwise the duplicate name with the
      smallest free counter. */
  ghost predicate FirstFreeName(taken: set<string>, name: string, key: string) {
    && key !in taken
    && (name !in taken ==> key == name)
    && (name in taken ==>
          exists n: nat :: 1 <= n && key == DupName(name, n)
            && forall c: nat :: 1 <= c < n ==> DupName(name, c) in taken)
  }

  lemma {:induction false} FirstFreeFromFree(taken: set<string>, name: string, n: nat)
    requires n >= 1
    requires forall c: nat :: 1 <= c < n ==> DupName(name, c) in taken
    ensures exists m: nat ::
              && n <= m && FirstFreeFrom(taken, name, n) == DupName(name, m)
              && DupName(name, m) !in taken
              && forall c: nat :: 1 <= c < m ==> DupName(name, c) in taken
    decreases |taken| + 1 - n
  {
    CounterBound(taken, name, n);
    if DupName(name, n) in taken {
      CounterBound(taken, name, n + 1);
      FirstFreeFromFree(taken, name, n + 1);
    }
  }

  lemma FirstFreeNameUnique(taken: set<string>, name: string, k1: string, k2: string)
    requires FirstFreeName(taken, name, k1) && FirstFreeName(taken, name, k2)
    ensures k1 == k2
  {
    if name in taken {
      var n1: nat :| 1 <= n1 && k1 == DupName(name, n1)
        && forall c: nat :: 1 <= c < n1 ==> DupName(name, c) in taken;
      var n2: nat :| 1 <= n2 && k2 == DupName(name, n2)
        && forall c: nat :: 1 <= c < n2 ==> DupName(name, c) in taken;
      assert n1 == n2;
    }
  }

  /** FirstFree meets the policy, and is the only name that does. */
  lemma FirstFreeIsTheFreeName(taken: set<string>, name: string, key: string)
    ensures FirstFreeName(taken, name, FirstFree(taken, name))
    ensures FirstFreeName(taken, name, key) ==> key == FirstFree(taken, name)
  {
    if name in taken {
      FirstFreeFromFree(taken, name, 1);
    }
    if FirstFreeName(taken, name, key) {
      FirstFreeNameUnique(taken, name, key, FirstFree(taken, name));
    }
  }

  /** `key` is `name` itself or `name` with some duplicate counter. */
  ghost predicate Renamed(name: string, key: string) {
    key == name || exists n: nat :: 1 <= n && key == DupName(name, n)
  }

  /** The chosen name is free and derived from the requested one. */
  lemma FirstFreeRenames(taken: set<string>, name: string)
    ensures FirstFree(taken, name) !in taken
    ensures Renamed(name, FirstFree(taken, name))
  {
    FirstFreeIsTheFreeName(taken, name, name);
  }

  /** The renaming loop of LoadProxies: try name, then name-重名1, name-重名2, ...
      until a name is not in `taken`. */
  method FreeName(taken: set<string>, name: string) returns (key: string)
    ensures key == FirstFree(taken, name)
  {
    key := name;
    if name in taken {
      var counter: nat := 1;
      while DupName(name, counter) in taken
        invariant counter >= 1
        invariant forall c: nat :: 1 <= c < counter ==> DupName(name, c) in taken
        invariant FirstFreeFrom(taken, name, counter) == FirstFreeFrom(taken, name, 1)
        decreases |taken| + 1 - counter
      {
        CounterBound(taken, name, counter + 1);
        counter := counter + 1;
      }
      key := DupName(name, counter);
    }
  }
}
