/** Rows of a database table held in a sequence, in insertion order, and the
    three ways the booking backend looks at them: filtering (a queryset's
    `filter`/`exclude`), finding one row (`get`) and rewriting the row that
    has a given primary key (`UPDATE … WHERE id = …`). */
module Tables {

  datatype Option<T> = None | Some(value: T)

  /** The rows of `s` that satisfy `keep`, in their order in `s`. Every kept row
      appears as often as in `s`, every other row not at all. */
  function Filter<T(!new)>(s: seq<T>, keep: T -> bool): (r: seq<T>)
    ensures |r| <= |s|
    ensures forall x :: x in r <==> x in s && keep(x)
    ensures forall x :: multiset(r)[x] == if keep(x) then multiset(s)[x] else 0
    decreases |s|
  {
    if s == [] then []
    else
      var rest := Filter(s[1..], keep);
      assert s == [s[0]] + s[1..];
      if keep(s[0]) then [s[0]] + rest else rest
  }

  /** The first row of `s` that satisfies `found`, if there is one. */
  function Find<T(!new)>(s: seq<T>, found: T -> bool): (r: Option<T>)
    ensures r.Some? ==> r.value in s && found(r.value)
    ensures r.None? <==> forall x :: x in s ==> !found(x)
    decreases |s|
  {
    if s == [] then None
    else if found(s[0]) then Some(s[0])
    else
      assert s == [s[0]] + s[1..];
      Find(s[1..], found)
  }

  /** The row of `s` whose key equals that of `row` is replaced by `row`;
      all other rows stay where they are. */
  function Replace<T(!new)>(s: seq<T>, key: T -> nat, row: T): seq<T>
  {
    seq(|s|, i requires 0 <= i < |s| => if key(s[i]) == key(row) then row else s[i])
  }

  /** No two rows of `s` share a key (a primary key column). */
  predicate UniqueKeys<T(!new)>(s: seq<T>, key: T -> nat)
  {
    forall i, j :: 0 <= i < j < |s| ==> key(s[i]) != key(s[j])
  }

  /** Deleting rows never creates a duplicate primary key. */
  lemma {:induction false} FilterKeepsKeysUnique<T(!new)>(s: seq<T>, keep: T -> bool, key: T -> nat)
    requires UniqueKeys(s, key)
    ensures UniqueKeys(Filter(s, keep), key)
    decreases |s|
  {
    if s != [] {
      var tail := s[1..];
      assert UniqueKeys(tail, key) by {
        forall i, j | 0 <= i < j < |tail| ensures key(tail[i]) != key(tail[j]) {
          assert tail[i] == s[i + 1] && tail[j] == s[j + 1];
        }
      }
      FilterKeepsKeysUnique(tail, keep, key);
      if keep(s[0]) {
        var rest := Filter(tail, keep);
        forall x | x in rest ensures key(x) != key(s[0]) {
          HeadKeyNotInTail(s, key, x);
        }
        ConsKeepsKeysUnique(s[0], rest, key);
        assert Filter(s, keep) == [s[0]] + rest;
      }
    }
  }

  lemma HeadKeyNotInTail<T(!new)>(s: seq<T>, key: T -> nat, x: T)
    requires UniqueKeys(s, key) && |s| > 0 && x in s[1..]
    ensures key(x) != key(s[0])
  {
  }

  lemma ConsKeepsKeysUnique<T(!new)>(h: T, t: seq<T>, key: T -> nat)
    requires UniqueKeys(t, key)
    requires forall x :: x in t ==> key(x) != key(h)
    ensures UniqueKeys([h] + t, key)
  {
  }

  /** Applying the same filter twice keeps what applying it once keeps. */
  lemma {:induction false} FilterIdempotent<T(!new)>(s: seq<T>, keep: T -> bool)
    ensures Filter(Filter(s, keep), keep) == Filter(s, keep)
    decreases |s|
  {
    if s != [] {
      FilterIdempotent(s[1..], keep);
      var rest := Filter(s[1..], keep);
      if keep(s[0]) {
        var r := [s[0]] + rest;
        assert Filter(s, keep) == r;
        assert r[1..] == rest;
      }
    }
  }
}
