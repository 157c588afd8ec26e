/** The array operations that the source chains together: filter, map, and `[...new Set(xs)]`. */
module Lists {

  function Select<T>(s: seq<T>, p: T -> bool): seq<T> {
    if s == [] then [] else (if p(s[0]) then [s[0]] else []) + Select(s[1..], p)
  }

  function Map<T, U>(s: seq<T>, f: T -> U): seq<U> {
    seq(|s|, i requires 0 <= i < |s| => f(s[i]))
  }

  /** `parts.join(separator)`, for parts that are texts. */
  function Join<T>(parts: seq<seq<T>>, separator: seq<T>): seq<T> {
    if parts == [] then []
    else if |parts| == 1 then parts[0]
    else parts[0] + separator + Join(parts[1..], separator)
  }

  /** The first occurrence of every element, in order. */
  function Unique<T(==)>(s: seq<T>): seq<T> {
    if s == [] then []
    else
      var n := |s| - 1;
      Unique(s[..n]) + if s[n] in s[..n] then [] else [s[n]]
  }

  /** `Array.prototype.findIndex`; the length stands for "not found". */
  function IndexOf<T>(s: seq<T>, p: T -> bool): (i: nat)
    ensures i <= |s| && (i < |s| ==> p(s[i])) && forall j :: 0 <= j < i ==> !p(s[j])
  {
    if s == [] || p(s[0]) then 0 else 1 + IndexOf(s[1..], p)
  }

  ghost predicate NoDuplicates<T>(s: seq<T>) {
    forall i, j :: 0 <= i < j < |s| ==> s[i] != s[j]
  }

  lemma {:induction false} SelectMembers<T(!new)>(s: seq<T>, p: T -> bool)
    ensures forall x :: x in Select(s, p) <==> x in s && p(x)
  {
    if s != [] {
      SelectMembers(s[1..], p);
    }
  }

  lemma {:induction false} SelectNoDuplicates<T(!new)>(s: seq<T>, p: T -> bool)
    requires NoDuplicates(s)
    ensures NoDuplicates(Select(s, p))
  {
    if s != [] {
      SelectNoDuplicates(s[1..], p);
      SelectMembers(s[1..], p);
      var rest := Select(s[1..], p);
      forall j | 0 <= j < |rest| ensures rest[j] != s[0] {
        assert rest[j] in s[1..];
      }
    }
  }

  lemma {:induction false} UniqueMembers<T(!new)>(s: seq<T>)
    ensures NoDuplicates(Unique(s)) && forall x :: x in Unique(s) <==> x in s
  {
    if s != [] {
      var n := |s| - 1;
      UniqueMembers(s[..n]);
      assert s == s[..n] + [s[n]];
    }
  }

  lemma {:induction false} UniqueOfUnique<T(!new)>(s: seq<T>)
    requires NoDuplicates(s)
    ensures Unique(s) == s
  {
    if s != [] {
      var n := |s| - 1;
      UniqueOfUnique(s[..n]);
      assert s == s[..n] + [s[n]];
    }
  }

  lemma {:induction false} NoDuplicatesCounts<T(!new)>(s: seq<T>)
    ensures NoDuplicates(s) <==> forall x :: multiset(s)[x] <= 1
  {
    if s != [] {
      NoDuplicatesCounts(s[1..]);
      assert s == [s[0]] + s[1..];
      assert multiset(s) == multiset{s[0]} + multiset(s[1..]);
      if !NoDuplicates(s) {
        var i, j :| 0 <= i < j < |s| && s[i] == s[j];
        if i == 0 {
          assert s[j] == s[1..][j - 1];
          assert multiset(s)[s[0]] >= 2;
        } else {
          assert s[1..][i - 1] == s[1..][j - 1];
          var x :| multiset(s[1..])[x] > 1;
          assert multiset(s)[x] > 1;
        }
      } else {
        forall i, j | 0 <= i < j < |s[1..]| ensures s[1..][i] != s[1..][j] {
          assert s[i + 1] != s[j + 1];
        }
        assert s[0] !in s[1..];
      }
    }
  }

  /** Rearranging creates no duplicates. */
  lemma PermutedNoDuplicates<T(!new)>(s: seq<T>, t: seq<T>)
    requires NoDuplicates(s) && multiset(s) == multiset(t)
    ensures NoDuplicates(t)
  {
    NoDuplicatesCounts(s);
    NoDuplicatesCounts(t);
  }

  lemma LastOfConcat<T>(a: seq<T>, b: seq<T>)
    requires b != []
    ensures a + b == a + b[..|b| - 1] + [b[|b| - 1]]
    ensures b == b[..|b| - 1] + [b[|b| - 1]]
  {
  }

  lemma PrefixGrows<T>(s: seq<T>, i: nat)
    requires i < |s|
    ensures s[..i + 1] == s[..i] + [s[i]]
  {
  }

  lemma {:induction false} SelectSnoc<T>(s: seq<T>, x: T, p: T -> bool)
    ensures Select(s + [x], p) == Select(s, p) + if p(x) then [x] else []
  {
    if s == [] {
      assert [] + [x] == [x];
    } else {
      SelectSnoc(s[1..], x, p);
      assert (s + [x])[1..] == s[1..] + [x];
    }
  }

  lemma UniqueSnoc<T>(s: seq<T>, x: T)
    ensures Unique(s + [x]) == Unique(s) + if x in s then [] else [x]
  {
    assert (s + [x])[..|s|] == s;
  }

  lemma UpdatedTwice<T>(s: seq<T>, i: nat, a: T, b: T)
    requires i < |s|
    ensures s[i := a][i := b] == s[i := b]
  {
  }
}
