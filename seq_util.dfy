/** Generic list operations shared by several components: `filter(x => x !== v)`,
    the filter-or-append toggle, and the facts about them used elsewhere. */
module SeqUtil {

  /** No element occurs twice. */
  predicate Distinct<T(==)>(s: seq<T>) {
    forall i, j :: 0 <= i < j < |s| ==> s[i] != s[j]
  }

  /** `sub` can be obtained from `s` by deleting elements: the elements that
      remain keep the order they had in `s`. */
  predicate IsSubsequence<T(==)>(sub: seq<T>, s: seq<T>)
    decreases |s|
  {
    if sub == [] then true
    else if s == [] then false
    else if sub[0] == s[0] then IsSubsequence(sub[1..], s[1..])
    else IsSubsequence(sub, s[1..])
  }

  /** `s.filter(x => x !== v)`: every occurrence of `v` is dropped and every
      other element is kept, in order. */
  function RemoveAll<T(==,!new)>(s: seq<T>, v: T): (r: seq<T>)
    ensures v !in r
    ensures forall x :: x != v ==> (x in r <==> x in s)
    ensures multiset(r) == multiset(s)[v := 0]
    ensures v !in s ==> r == s
  {
    if s == [] then []
    else
      assert s == [s[0]] + s[1..];
      if s[0] == v then RemoveAll(s[1..], v)
      else [s[0]] + RemoveAll(s[1..], v)
  }

  /** `s.includes(v) ? s.filter(x => x !== v) : [...s, v]`: the membership of
      `v` flips and the membership of everything else stays. */
  function Toggle<T(==,!new)>(s: seq<T>, v: T): (r: seq<T>)
    ensures v in r <==> v !in s
    ensures forall x :: x != v ==> (x in r <==> x in s)
    ensures v in s ==> IsSubsequence(r, s) && multiset(r) == multiset(s)[v := 0]
    ensures v !in s ==> r == s + [v]
  {
    if v in s then
      RemoveAllIsSubsequence(s, v);
      RemoveAll(s, v)
    else s + [v]
  }

  /** The elements `RemoveAll` keeps appear in their original order. */
  lemma {:induction false} RemoveAllIsSubsequence<T(!new)>(s: seq<T>, v: T)
    ensures IsSubsequence(RemoveAll(s, v), s)
  {
    if s != [] {
      RemoveAllIsSubsequence(s[1..], v);
    }
  }

  /** A subsequence of the tail is a subsequence of the whole list. */
  lemma {:induction false} SubsequenceOfTail<T>(sub: seq<T>, s: seq<T>)
    requires s != [] && IsSubsequence(sub, s[1..])
    ensures IsSubsequence(sub, s)
    decreases |s|, 0
  {
    if sub != [] && sub[0] == s[0] {
      SubsequenceDropHead(sub, s[1..]);
    }
  }

  /** Dropping the first element of a subsequence leaves a subsequence. */
  lemma {:induction false} SubsequenceDropHead<T>(sub: seq<T>, s: seq<T>)
    requires sub != [] && IsSubsequence(sub, s)
    ensures IsSubsequence(sub[1..], s)
    decreases |s|, 1
  {
    if sub[0] == s[0] {
      SubsequenceOfTail(sub[1..], s);
    } else {
      SubsequenceDropHead(sub, s[1..]);
      SubsequenceOfTail(sub[1..], s);
    }
  }

  /** Removing every copy of a value that was appended to a list without it
      gives the list back. */
  lemma {:induction false} RemoveAllAppended<T(!new)>(s: seq<T>, v: T)
    requires v !in s
    ensures RemoveAll(s + [v], v) == s
  {
    if s != [] {
      assert (s + [v])[1..] == s[1..] + [v];
      RemoveAllAppended(s[1..], v);
    }
  }

  /** Dropping elements from a list without duplicates leaves a list without
      duplicates. */
  lemma {:induction false} RemoveAllKeepsDistinct<T(!new)>(s: seq<T>, v: T)
    requires Distinct(s)
    ensures Distinct(RemoveAll(s, v))
  {
    if s != [] {
      RemoveAllKeepsDistinct(s[1..], v);
      if s[0] != v {
        var r := RemoveAll(s[1..], v);
        assert s[0] !in s[1..];
        assert s[0] !in r;
        assert RemoveAll(s, v) == [s[0]] + r;
      }
    }
  }

  /** Toggling a value twice, starting from a list that does not hold it,
      restores the list. */
  lemma ToggleTwiceRestores<T(!new)>(s: seq<T>, v: T)
    requires v !in s
    ensures Toggle(Toggle(s, v), v) == s
  {
    RemoveAllAppended(s, v);
  }

  /** Toggling keeps a list free of duplicates. */
  lemma ToggleKeepsDistinct<T(!new)>(s: seq<T>, v: T)
    requires Distinct(s)
    ensures Distinct(Toggle(s, v))
  {
    if v in s {
      RemoveAllKeepsDistinct(s, v);
    }
  }

  lemma AppendAssociates<T>(a: seq<T>, b: seq<T>, c: seq<T>)
    ensures a + b + c == a + (b + c)
  {
  }
}
