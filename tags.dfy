/**
 * The tag lists of the intake form (`skills`, `interests`) and the toggle that the
 * form's tag buttons call: a present tag is filtered out, an absent one is appended.
 */
module Tags {

  /** `s.filter((x) => x !== t)`: every occurrence of `t` removed, the rest in order. */
  function RemoveAll(s: seq<string>, t: string): (r: seq<string>)
    ensures t !in r
  {
    if s == [] then []
    else (if s[0] == t then [] else [s[0]]) + RemoveAll(s[1..], t)
  }

  /** Filtering drops every copy of `t` and keeps every copy of every other tag. */
  lemma {:induction false} RemoveAllCounts(s: seq<string>, t: string)
    ensures multiset(RemoveAll(s, t)) == multiset(s)[t := 0]
  {
    if s != [] {
      assert s == [s[0]] + s[1..];
      RemoveAllCounts(s[1..], t);
    }
  }

  /** `s.includes(t) ? s.filter((x) => x !== t) : [...s, t]` */
  function Toggle(s: seq<string>, t: string): seq<string> {
    if t in s then RemoveAll(s, t) else s + [t]
  }

  /** No tag occurs twice. */
  predicate NoDuplicates(s: seq<string>) {
    forall i, j | 0 <= i < j < |s| :: s[i] != s[j]
  }

  /** Filtering distributes over concatenation, so the surviving tags keep their order. */
  lemma {:induction false} RemoveAllConcat(a: seq<string>, b: seq<string>, t: string)
    ensures RemoveAll(a + b, t) == RemoveAll(a, t) + RemoveAll(b, t)
  {
    if a == [] {
      assert a + b == b;
    } else {
      var head := if a[0] == t then [] else [a[0]];
      assert (a + b)[0] == a[0];
      assert (a + b)[1..] == a[1..] + b;
      assert RemoveAll(a + b, t) == head + RemoveAll(a[1..] + b, t);
      RemoveAllConcat(a[1..], b, t);
      assert RemoveAll(a, t) == head + RemoveAll(a[1..], t);
    }
  }

  /** Filtering out a tag that is not there changes nothing. */
  lemma {:induction false} RemoveAllAbsent(s: seq<string>, t: string)
    requires t !in s
    ensures RemoveAll(s, t) == s
  {
    if s != [] {
      RemoveAllAbsent(s[1..], t);
    }
  }

  /** Filtering keeps a duplicate-free list duplicate-free. */
  lemma {:induction false} RemoveAllKeepsDistinct(s: seq<string>, t: string)
    requires NoDuplicates(s)
    ensures NoDuplicates(RemoveAll(s, t))
  {
    if s != [] {
      RemoveAllKeepsDistinct(s[1..], t);
      var rest := RemoveAll(s[1..], t);
      assert s[0] !in s[1..];
      assert s[0] !in multiset(s[1..]);
      assert s[0] !in rest by {
        RemoveAllCounts(s[1..], t);
        assert multiset(rest)[s[0]] <= multiset(s[1..])[s[0]];
      }
    }
  }

  /**
   * Toggling flips the membership of `t` and of nothing else; an absent tag is added
   * exactly once, at the end.
   */
  lemma ToggleFlipsMembership(s: seq<string>, t: string)
    ensures t in Toggle(s, t) <==> t !in s
    ensures forall x :: x != t ==> (x in Toggle(s, t) <==> x in s)
    ensures t !in s ==> Toggle(s, t) == s + [t]
    ensures t in s ==> multiset(Toggle(s, t)) == multiset(s)[t := 0]
  {
    RemoveAllCounts(s, t);
    forall x | x != t ensures x in Toggle(s, t) <==> x in s {
      if t in s {
        assert x in multiset(RemoveAll(s, t)) <==> x in multiset(s);
      }
    }
  }

  /** Toggling keeps a duplicate-free list duplicate-free. */
  lemma ToggleKeepsDistinct(s: seq<string>, t: string)
    requires NoDuplicates(s)
    ensures NoDuplicates(Toggle(s, t))
  {
    if t in s {
      RemoveAllKeepsDistinct(s, t);
    }
  }

  /** Toggling an absent tag twice gives back the original list, order included. */
  lemma ToggleTwiceAbsent(s: seq<string>, t: string)
    requires t !in s
    ensures Toggle(Toggle(s, t), t) == s
  {
    RemoveAllConcat(s, [t], t);
    RemoveAllAbsent(s, t);
  }

  /** Toggling a present tag twice moves it to the end instead of restoring its place. */
  lemma ToggleTwicePresent(s: seq<string>, t: string)
    requires t in s
    ensures Toggle(Toggle(s, t), t) == RemoveAll(s, t) + [t]
  {
  }

  /** A concrete case where the double toggle of a present tag reorders the list. */
  lemma ToggleTwiceReorders()
    ensures Toggle(Toggle(["Programming", "Design"], "Programming"), "Programming")
      == ["Design", "Programming"]
  {
    var s := ["Programming", "Design"];
    assert "Programming" in s;
    assert RemoveAll(s, "Programming") == ["Design"] by {
      assert s[1..] == ["Design"];
      assert RemoveAll(s[1..][1..], "Programming") == [];
    }
  }
}
