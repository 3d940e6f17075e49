/** The list operations the application builds its state updates and
    queries from: `Array.prototype.filter`, `find`, `includes`, and the
    three update idioms `[...prev, x]`, `prev.filter(y => y !== x)` and
    `prev.filter((_, i) => i !== index)`. */
module Lists {
  import opened Wrappers

  /** No element occurs twice. */
  ghost predicate NoDup<T(!new)>(s: seq<T>) {
    forall i, j :: 0 <= i < j < |s| ==> s[i] != s[j]
  }

  /** `r` is obtained from `s` by deleting elements, keeping the order of the rest. */
  ghost predicate IsSubseq<T(!new)>(r: seq<T>, s: seq<T>)
    decreases |s|
  {
    if r == [] then true
    else if s == [] then false
    else if r[0] == s[0] then IsSubseq(r[1..], s[1..])
    else IsSubseq(r, s[1..])
  }

  /** `s.filter(p)`: the elements satisfying `p`, each as often as in `s`, in order. */
  function Filter<T(!new)>(s: seq<T>, p: T -> bool): (r: seq<T>)
    ensures |r| <= |s|
    ensures forall x :: x in r <==> x in s && p(x)
  {
    if s == [] then []
    else if p(s[0]) then [s[0]] + Filter(s[1..], p)
    else Filter(s[1..], p)
  }

  /** The filtered list keeps each element satisfying `p` as often as `s`
      has it, drops the others, and keeps the order of `s`. */
  lemma {:induction false} FilterExact<T(!new)>(s: seq<T>, p: T -> bool)
    ensures forall x :: multiset(Filter(s, p))[x] == if p(x) then multiset(s)[x] else 0
    ensures IsSubseq(Filter(s, p), s)
  {
    if s != [] {
      FilterExact(s[1..], p);
      assert s == [s[0]] + s[1..];
      var rest := Filter(s[1..], p);
      if p(s[0]) {
        assert ([s[0]] + rest)[1..] == rest;
      } else {
        SubseqSkip(rest, s);
      }
    }
  }

  /** A subsequence of the tail is a subsequence of the whole list. */
  lemma {:induction false} SubseqSkip<T(!new)>(r: seq<T>, s: seq<T>)
    requires s != [] && IsSubseq(r, s[1..])
    ensures IsSubseq(r, s)
    decreases |s|, 1
  {
    if r != [] && r[0] == s[0] {
      SubseqDropHead(r, s[1..]);
    }
  }

  /** Dropping the first element of a subsequence leaves a subsequence. */
  lemma {:induction false} SubseqDropHead<T(!new)>(r: seq<T>, t: seq<T>)
    requires r != [] && IsSubseq(r, t)
    ensures IsSubseq(r[1..], t)
    decreases |t|, 2
  {
    if r[0] == t[0] {
      SubseqSkip(r[1..], t);
    } else {
      SubseqDropHead(r, t[1..]);
      SubseqSkip(r[1..], t);
    }
  }

  /** Filtering distributes over concatenation: the relative order is kept. */
  lemma {:induction false} FilterAppend<T(!new)>(a: seq<T>, b: seq<T>, p: T -> bool)
    ensures Filter(a + b, p) == Filter(a, p) + Filter(b, p)
  {
    if a == [] {
      assert a + b == b;
    } else {
      assert (a + b)[1..] == a[1..] + b;
      FilterAppend(a[1..], b, p);
    }
  }

  /** Filtering with a predicate every element satisfies changes nothing. */
  lemma {:induction false} FilterAll<T(!new)>(s: seq<T>, p: T -> bool)
    ensures (forall i :: 0 <= i < |s| ==> p(s[i])) ==> Filter(s, p) == s
  {
    if s != [] {
      FilterAll(s[1..], p);
      assert forall i :: 0 <= i < |s[1..]| ==> s[1..][i] == s[i + 1];
    }
  }

  /** Filtering keeps a duplicate-free list duplicate-free. */
  lemma {:induction false} FilterNoDup<T(!new)>(s: seq<T>, p: T -> bool)
    ensures NoDup(s) ==> NoDup(Filter(s, p))
  {
    if s != [] && NoDup(s) {
      assert NoDup(s[1..]) by {
        forall i, j | 0 <= i < j < |s[1..]| ensures s[1..][i] != s[1..][j] {
          assert s[1..][i] == s[i + 1] && s[1..][j] == s[j + 1];
        }
      }
      FilterNoDup(s[1..], p);
      var rest := Filter(s[1..], p);
      if p(s[0]) {
        assert s[0] !in s[1..] by {
          forall k | 0 <= k < |s[1..]| ensures s[1..][k] != s[0] {
            assert s[1..][k] == s[k + 1];
          }
        }
        assert s[0] !in rest;
        ConsNoDup(s[0], rest);
      }
    }
  }

  /** A list with a new element in front is duplicate-free when the tail is
      and the element is not in it. */
  lemma ConsNoDup<T(!new)>(x: T, s: seq<T>)
    requires NoDup(s) && x !in s
    ensures NoDup([x] + s)
  {
    forall i, j | 0 <= i < j < |[x] + s| ensures ([x] + s)[i] != ([x] + s)[j] {
      if i == 0 {
        assert ([x] + s)[j] == s[j - 1];
      } else {
        assert ([x] + s)[i] == s[i - 1] && ([x] + s)[j] == s[j - 1];
      }
    }
  }

  /** A list with a new element at the end is duplicate-free when the list is
      and the element is not in it. */
  lemma SnocNoDup<T(!new)>(s: seq<T>, x: T)
    ensures NoDup(s) && x !in s ==> NoDup(s + [x])
  {
    if NoDup(s) && x !in s {
      forall i, j | 0 <= i < j < |s + [x]| ensures (s + [x])[i] != (s + [x])[j] {
        if j == |s| {
          assert (s + [x])[i] == s[i];
        } else {
          assert (s + [x])[i] == s[i] && (s + [x])[j] == s[j];
        }
      }
    }
  }

  /** `s.findIndex(p)`: the position of the first element satisfying `p`, or nothing. */
  function FindIndex<T(!new)>(s: seq<T>, p: T -> bool): (r: Option<nat>)
    ensures r.None? <==> forall i :: 0 <= i < |s| ==> !p(s[i])
    ensures r.Some? ==> r.value < |s| && p(s[r.value]) && forall j :: 0 <= j < r.value ==> !p(s[j])
  {
    if s == [] then None
    else if p(s[0]) then Some(0)
    else
      match FindIndex(s[1..], p)
      case None => None
      case Some(i) => Some(i + 1)
  }

  /** `s.find(p)`: the first element satisfying `p`, or nothing. */
  function Find<T(!new)>(s: seq<T>, p: T -> bool): (r: Option<T>)
    ensures r.None? <==> forall i :: 0 <= i < |s| ==> !p(s[i])
    ensures r.Some? ==> exists i :: 0 <= i < |s| && s[i] == r.value && p(s[i]) &&
                                    forall j :: 0 <= j < i ==> !p(s[j])
  {
    match FindIndex(s, p)
    case None => None
    case Some(i) => Some(s[i])
  }

  /** `prev.filter(y => y !== x)`: every occurrence of `x` removed, the rest
      kept in order. */
  function RemoveAll<T(==,!new)>(s: seq<T>, x: T): (r: seq<T>)
    ensures x !in r
    ensures forall y :: y != x ==> (y in r <==> y in s)
    ensures forall y :: y != x ==> multiset(r)[y] == multiset(s)[y]
    ensures IsSubseq(r, s)
    ensures x !in s ==> r == s
    ensures NoDup(s) ==> NoDup(r)
  {
    FilterAll(s, y => y != x);
    FilterNoDup(s, y => y != x);
    FilterExact(s, y => y != x);
    Filter(s, y => y != x)
  }

  /** Removing every occurrence distributes over concatenation. */
  lemma RemoveAllAppend<T(!new)>(a: seq<T>, b: seq<T>, x: T)
    ensures RemoveAll(a + b, x) == RemoveAll(a, x) + RemoveAll(b, x)
  {
    FilterAppend(a, b, y => y != x);
  }

  /** `prev.filter((_, i) => i !== index)`: the element at `index` removed when
      `index` is a position of `s`; otherwise `s` itself. */
  function RemoveAt<T(!new)>(s: seq<T>, index: int): (r: seq<T>)
    ensures 0 <= index < |s| ==> r == s[..index] + s[index + 1..]
    ensures !(0 <= index < |s|) ==> r == s
  {
    if s == [] then []
    else
      var rest := RemoveAt(s[1..], index - 1);
      if index == 0 then rest
      else
        assert 0 < index < |s| ==> rest == s[1..index] + s[index + 1..];
        [s[0]] + rest
  }

  /** Removing one position keeps a duplicate-free list duplicate-free. */
  lemma RemoveAtNoDup<T(!new)>(s: seq<T>, index: int)
    requires NoDup(s)
    ensures NoDup(RemoveAt(s, index))
  {
    if 0 <= index < |s| {
      var r := RemoveAt(s, index);
      forall i, j | 0 <= i < j < |r| ensures r[i] != r[j] {
        var i' := if i < index then i else i + 1;
        var j' := if j < index then j else j + 1;
        assert r[i] == s[i'] && r[j] == s[j'];
      }
    }
  }

  /** The toggle rule `prev.includes(x) ? prev.filter(y => y !== x) : [...prev, x]`. */
  function Toggle<T(==,!new)>(s: seq<T>, x: T): (r: seq<T>)
    ensures x in r <==> x !in s
    ensures forall y :: y != x ==> (y in r <==> y in s)
    ensures x !in s ==> r == s + [x]
    ensures x in s ==> IsSubseq(r, s) && forall y :: y != x ==> multiset(r)[y] == multiset(s)[y]
  {
    if x in s then RemoveAll(s, x) else s + [x]
  }

  /** Toggling an absent element twice restores the list. */
  lemma ToggleTwice<T(!new)>(s: seq<T>, x: T)
    requires x !in s
    ensures Toggle(Toggle(s, x), x) == s
  {
    RemoveAllAppend(s, [x], x);
    assert RemoveAll([x], x) == [];
  }

  /** Toggling keeps a duplicate-free list duplicate-free. */
  lemma ToggleNoDup<T(!new)>(s: seq<T>, x: T)
    requires NoDup(s)
    ensures NoDup(Toggle(s, x))
  {
    SnocNoDup(s, x);
  }

  /** The list after toggling each element of `xs` in turn. */
  function ToggleAll<T(==,!new)>(s: seq<T>, xs: seq<T>): seq<T>
    decreases |xs|
  {
    if xs == [] then s else ToggleAll(Toggle(s, xs[0]), xs[1..])
  }

  /** Any run of toggles keeps a duplicate-free list (in particular the empty
      one) duplicate-free. */
  lemma {:induction false} ToggleAllNoDup<T(!new)>(s: seq<T>, xs: seq<T>)
    requires NoDup(s)
    ensures NoDup(ToggleAll(s, xs))
    decreases |xs|
  {
    if xs != [] {
      ToggleNoDup(s, xs[0]);
      ToggleAllNoDup(Toggle(s, xs[0]), xs[1..]);
    }
  }
}
