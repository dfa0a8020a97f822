/** Sorted lists of node names: the byte order of strings, sorting, and the merge without repetition. */
module NodeNames {

  /** The part of a node name before its first at sign. */
  function ShortName(name: string): (short: string)
    ensures short <= name && '@' !in short
    ensures short == name <==> '@' !in name
    ensures |short| < |name| ==> name[|short|] == '@'
  {
    if name == "" || name[0] == '@' then "" else [name[0]] + ShortName(name[1..])
  }

  lemma {:induction false} ShortNameOf(head: string, rest: string)
    requires '@' !in head
    ensures ShortName(head + "@" + rest) == head
  {
    if head != "" {
      ShortNameOf(head[1..], rest);
      assert (head + "@" + rest)[1..] == head[1..] + "@" + rest;
    }
  }

  predicate Less(a: string, b: string) {
    if b == "" then false
    else if a == "" then true
    else a[0] < b[0] || (a[0] == b[0] && Less(a[1..], b[1..]))
  }

  /** The order of strings by their first difference, a front part before the whole. */
  lemma {:induction false} LessMeans(a: string, b: string)
    ensures Less(a, b) <==> (a <= b && a != b) || exists k :: DiffersAt(a, b, k)
  {
    if a != "" && b != "" {
      LessMeans(a[1..], b[1..]);
      assert a == [a[0]] + a[1..] && b == [b[0]] + b[1..];
      if a[0] == b[0] {
        forall k | DiffersAt(a[1..], b[1..], k) ensures DiffersAt(a, b, k + 1) {
          DiffersLater(a, b, k);
        }
        forall k | DiffersAt(a, b, k) ensures DiffersAt(a[1..], b[1..], k - 1) {
          DiffersLater(a, b, k - 1);
        }
      } else if a[0] < b[0] {
        assert DiffersAt(a, b, 0);
      }
    }
  }

  predicate DiffersAt(a: string, b: string, k: int) {
    0 <= k < |a| && k < |b| && a[..k] == b[..k] && a[k] < b[k]
  }

  lemma DiffersLater(a: string, b: string, k: int)
    requires a != "" && b != "" && a[0] == b[0]
    ensures k >= 0 ==> (DiffersAt(a[1..], b[1..], k) <==> DiffersAt(a, b, k + 1))
    ensures !DiffersAt(a, b, 0)
  {
    if 0 <= k < |a| - 1 && k < |b| - 1 {
      assert a[..k + 1] == [a[0]] + a[1..][..k] && b[..k + 1] == [b[0]] + b[1..][..k];
    }
  }

  lemma {:induction false} LessTransitive(a: string, b: string, c: string)
    requires Less(a, b) && Less(b, c)
    ensures Less(a, c)
  {
    if a != "" && a[0] == b[0] && b[0] == c[0] {
      LessTransitive(a[1..], b[1..], c[1..]);
    }
  }

  lemma {:induction false} LessTotal(a: string, b: string)
    ensures Less(a, b) || a == b || Less(b, a)
    ensures !(Less(a, b) && Less(b, a)) && !Less(a, a)
  {
    if a != "" {
      LessTotal(a[1..], a[1..]);
    }
    if a != "" && b != "" && a[0] == b[0] {
      LessTotal(a[1..], b[1..]);
      assert a == [a[0]] + a[1..] && b == [b[0]] + b[1..];
    }
  }

  ghost predicate Sorted(names: seq<string>) {
    forall i, j | 0 <= i < j < |names| :: !Less(names[j], names[i])
  }

  ghost predicate StrictlySorted(names: seq<string>) {
    forall i, j | 0 <= i < j < |names| :: Less(names[i], names[j])
  }

  function Members(names: seq<string>): set<string> {
    set n | n in names
  }

  /** A strictly sorted list is determined by its members. */
  lemma {:induction false} StrictlySortedUnique(a: seq<string>, b: seq<string>)
    requires StrictlySorted(a) && StrictlySorted(b) && Members(a) == Members(b)
    ensures a == b
    decreases |a|
  {
    NoMembers(a);
    NoMembers(b);
    if a != [] {
      FirstIsLeast(a, b);
      FirstIsLeast(b, a);
      LessTotal(a[0], b[0]);
      TailMembers(a);
      TailMembers(b);
      StrictlySortedUnique(a[1..], b[1..]);
      assert a == [a[0]] + a[1..] && b == [b[0]] + b[1..];
    }
  }

  lemma NoMembers(a: seq<string>)
    ensures Members(a) == {} <==> a == []
  {
    if a != [] {
      assert a[0] in Members(a);
    }
  }

  lemma FirstIsLeast(a: seq<string>, b: seq<string>)
    requires StrictlySorted(a) && a != [] && b != [] && Members(a) == Members(b)
    ensures a[0] == b[0] || Less(a[0], b[0])
  {
    assert b[0] in Members(a);
    var i :| 0 <= i < |a| && a[i] == b[0];
  }

  lemma TailMembers(a: seq<string>)
    requires StrictlySorted(a) && a != []
    ensures Members(a[1..]) == Members(a) - {a[0]}
  {
    LessTotal(a[0], a[0]);
    assert a == [a[0]] + a[1..];
    assert a[0] !in a[1..];
  }

  /** The library's sort, by insertion. */
  function Inserted(names: seq<string>, name: string): seq<string> {
    if names == [] || !Less(name, names[|names| - 1]) then names + [name]
    else Inserted(names[..|names| - 1], name) + [names[|names| - 1]]
  }

  lemma SortedSnoc(names: seq<string>, last: string)
    requires Sorted(names) && forall n | n in names :: !Less(last, n)
    ensures Sorted(names + [last])
  {
  }

  lemma {:induction false} InsertedHolds(names: seq<string>, name: string)
    ensures multiset(Inserted(names, name)) == multiset(names) + multiset{name}
    ensures forall n :: n in Inserted(names, name) <==> n in names || n == name
  {
    if names != [] && Less(name, names[|names| - 1]) {
      var front, last := names[..|names| - 1], names[|names| - 1];
      InsertedHolds(front, name);
      assert names == front + [last];
    }
  }

  /** Nothing in a sorted list is above its last element. */
  lemma LastIsGreatest(names: seq<string>, n: string)
    requires Sorted(names) && n in names
    ensures !Less(names[|names| - 1], n)
  {
    LessTotal(n, n);
  }

  lemma {:induction false} InsertedSorted(names: seq<string>, name: string)
    requires Sorted(names)
    ensures Sorted(Inserted(names, name))
  {
    if names != [] {
      var front, last := names[..|names| - 1], names[|names| - 1];
      if Less(name, last) {
        InsertedSorted(front, name);
        InsertedHolds(front, name);
        forall n | n in Inserted(front, name) ensures !Less(last, n) {
          LessTotal(name, last);
          if n != name {
            LastIsGreatest(names, n);
          }
        }
        SortedSnoc(Inserted(front, name), last);
      } else {
        forall n | n in names ensures !Less(name, n) {
          LastIsGreatest(names, n);
          NotBefore(name, last, n);
        }
        SortedSnoc(names, name);
      }
    }
  }

  lemma NotBefore(a: string, b: string, c: string)
    requires !Less(a, b) && !Less(b, c)
    ensures !Less(a, c)
  {
    if Less(a, c) {
      LessBefore(a, c, b);
    }
  }

  lemma LessBefore(a: string, b: string, c: string)
    requires Less(a, b) && !Less(c, b)
    ensures Less(a, c)
  {
    LessTotal(b, c);
    if Less(b, c) {
      LessTransitive(a, b, c);
    }
  }

  function SortNames(names: seq<string>): seq<string> {
    if names == [] then [] else Inserted(SortNames(names[..|names| - 1]), names[|names| - 1])
  }

  lemma {:induction false} SortNamesSorts(names: seq<string>)
    ensures Sorted(SortNames(names)) && multiset(SortNames(names)) == multiset(names)
  {
    if names != [] {
      var front, last := names[..|names| - 1], names[|names| - 1];
      SortNamesSorts(front);
      assert multiset(names) == multiset(front) + multiset{last} by {
        assert names == front + [last];
      }
      InsertedSorted(SortNames(front), last);
      InsertedHolds(SortNames(front), last);
    }
  }

  /** Sorting names that do not repeat puts them in strictly increasing order. */
  lemma SortDistinct(names: seq<string>)
    requires forall n | n in names :: multiset(names)[n] == 1
    ensures StrictlySorted(SortNames(names)) && Members(SortNames(names)) == Members(names)
  {
    SortNamesSorts(names);
    var sorted := SortNames(names);
    forall n ensures n in sorted <==> n in names {
      assert n in sorted <==> n in multiset(sorted);
      assert n in names <==> n in multiset(names);
    }
    forall i, j | 0 <= i < j < |sorted| ensures Less(sorted[i], sorted[j]) {
      LessTotal(sorted[i], sorted[j]);
      if sorted[i] == sorted[j] {
        TwiceCounted(sorted, i, j);
      }
    }
  }

  lemma TwiceCounted(names: seq<string>, i: nat, j: nat)
    requires i < j < |names| && names[i] == names[j]
    ensures multiset(names)[names[i]] >= 2
  {
    assert names == names[..i] + [names[i]] + names[i + 1..j] + [names[j]] + names[j + 1..];
  }

  /** Collects the keys of a set in whatever order the iteration gives, then sorts them. */
  method SortedKeys(unique: set<string>) returns (names: seq<string>)
    ensures StrictlySorted(names) && Members(names) == unique
  {
    var merged: seq<string> := [];
    var left := unique;
    while left != {}
      invariant left <= unique && Members(merged) == unique - left
      invariant forall n | n in merged :: multiset(merged)[n] == 1
      decreases |left|
    {
      var node :| node in left;
      left := left - {node};
      assert node !in Members(merged);
      assert Members(merged + [node]) == Members(merged) + {node};
      merged := merged + [node];
    }
    SortDistinct(merged);
    names := SortNames(merged);
  }

  function Distinct(names: seq<string>): seq<string> {
    if names == [] then []
    else
      var rest := Distinct(names[..|names| - 1]);
      if names[|names| - 1] in rest then rest else rest + [names[|names| - 1]]
  }

  /** The names in the order in which each first occurs: more names only add at the end. */
  lemma {:induction false} DistinctInOrder(names: seq<string>, k: nat)
    requires k <= |names|
    ensures Distinct(names[..k]) <= Distinct(names)
  {
    if k == |names| {
      assert names[..k] == names;
    } else {
      DistinctInOrder(names[..|names| - 1], k);
      assert names[..|names| - 1][..k] == names[..k];
    }
  }

  lemma MembersSnoc(names: seq<string>, name: string)
    ensures Members(names + [name]) == Members(names) + {name}
  {
    assert forall n :: n in names + [name] <==> n in names || n == name;
  }

  lemma {:induction false} DistinctOnce(names: seq<string>)
    ensures Members(Distinct(names)) == Members(names)
    ensures forall n | n in Distinct(names) :: multiset(Distinct(names))[n] == 1
  {
    if names != [] {
      var front, last := names[..|names| - 1], names[|names| - 1];
      DistinctOnce(front);
      MembersSnoc(front, last);
      MembersSnoc(Distinct(front), last);
      assert names == front + [last];
      assert last in Distinct(front) <==> last in Members(Distinct(front));
    }
  }

  /** The union of two lists, sorted and without repetition. */
  function Merged(left: seq<string>, right: seq<string>): seq<string> {
    SortNames(Distinct(left + right))
  }

  lemma MergedIsUnion(left: seq<string>, right: seq<string>)
    ensures StrictlySorted(Merged(left, right)) && Members(Merged(left, right)) == Members(left) + Members(right)
  {
    DistinctOnce(left + right);
    SortDistinct(Distinct(left + right));
    assert Members(left + right) == Members(left) + Members(right);
  }

  /** mergeNodeNames: the union of two lists, sorted and without repetition. */
  method MergeNodeNames(left: seq<string>, right: seq<string>) returns (merged: seq<string>)
    ensures StrictlySorted(merged) && Members(merged) == Members(left) + Members(right)
    ensures merged == Merged(left, right)
  {
    var unique: set<string> := {};
    for i := 0 to |left|
      invariant unique == Members(left[..i])
    {
      assert left[..i + 1] == left[..i] + [left[i]];
      unique := unique + {left[i]};
    }
    assert left[..|left|] == left;
    for i := 0 to |right|
      invariant unique == Members(left) + Members(right[..i])
    {
      assert right[..i + 1] == right[..i] + [right[i]];
      unique := unique + {right[i]};
    }
    assert right[..|right|] == right;
    merged := SortedKeys(unique);
    MergedIsUnion(left, right);
    StrictlySortedUnique(merged, Merged(left, right));
  }
}
