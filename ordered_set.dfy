/** A PHP associative array used as an ordered set: `$set[$x] = true`
    adds `x` at the end unless it is already a key, and `array_keys($set)`
    lists the keys in first-insertion order. The set is modelled by its key
    list. */
module OrderedSet {

  /** No element occurs twice. */
  predicate NoDup(s: seq<string>)
  {
    forall i, j :: 0 <= i < j < |s| ==> s[i] != s[j]
  }

  /** `$set[$x] = true`. */
  function Insert(s: seq<string>, x: string): seq<string>
  {
    if x in s then s else s + [x]
  }

  /** Inserting keeps the set free of duplicates, adds `x` and nothing
      else, and leaves the earlier keys where they were. */
  lemma InsertSpec(s: seq<string>, x: string)
    ensures NoDup(s) ==> NoDup(Insert(s, x))
    ensures x in Insert(s, x) && forall y :: y in Insert(s, x) <==> y in s || y == x
    ensures |s| <= |Insert(s, x)| && Insert(s, x)[..|s|] == s
  {
    if x !in s {
      assert (s + [x])[..|s|] == s;
    }
  }

  /** The keys of an initially empty set after inserting `xs` one by one,
      from the first to the last. */
  function Dedup(xs: seq<string>): (r: seq<string>)
  {
    if xs == [] then [] else Insert(Dedup(xs[..|xs| - 1]), xs[|xs| - 1])
  }

  /** Index of the first occurrence of `x` in `xs`. */
  function FirstIndex(xs: seq<string>, x: string): (k: nat)
    requires x in xs
    ensures k < |xs| && xs[k] == x && x !in xs[..k]
  {
    if xs[0] == x then 0 else 1 + FirstIndex(xs[1..], x)
  }

  /** Inserting one more element is `Insert` on what was there. */
  lemma DedupSnoc(xs: seq<string>, x: string)
    ensures Dedup(xs + [x]) == Insert(Dedup(xs), x)
  {
    assert (xs + [x])[..|xs + [x]| - 1] == xs;
  }

  /** Appending elements keeps the first occurrence of an earlier one. */
  lemma {:induction false} FirstIndexAppend(xs: seq<string>, ys: seq<string>, x: string)
    requires x in xs
    ensures FirstIndex(xs + ys, x) == FirstIndex(xs, x)
  {
    if xs[0] != x {
      assert (xs + ys)[1..] == xs[1..] + ys;
      FirstIndexAppend(xs[1..], ys, x);
    }
  }

  /** The ordered set built from `xs` holds each element of `xs` exactly
      once, nothing else, and lists elements in the order in which they
      first occur in `xs`. */
  lemma {:induction false} DedupSpec(xs: seq<string>)
    ensures NoDup(Dedup(xs))
    ensures forall y :: y in Dedup(xs) <==> y in xs
    ensures forall i, j :: 0 <= i < j < |Dedup(xs)| ==>
              FirstIndex(xs, Dedup(xs)[i]) < FirstIndex(xs, Dedup(xs)[j])
  {
    if xs != [] {
      var n := |xs| - 1;
      var init, x := xs[..n], xs[n];
      assert xs == init + [x];
      DedupSpec(init);
      var d := Dedup(init);
      var r := Dedup(xs);
      assert r == Insert(d, x);
      InsertSpec(d, x);
      forall y | y in d ensures FirstIndex(xs, y) == FirstIndex(init, y) {
        FirstIndexAppend(init, [x], y);
      }
      if x !in d {
        assert x !in init;
        assert FirstIndex(xs, x) == n;
        forall i | 0 <= i < |d| ensures FirstIndex(xs, r[i]) < FirstIndex(xs, x) {
          assert r[i] == d[i] && d[i] in d;
        }
      }
    }
  }
}
