/**
 * First-seen de-duplication, the behaviour of Python's
 * `list(dict.fromkeys(xs))` and of the `seen`/`gathered` pair kept while
 * crawling: every value is kept once, at the place it first appeared.
 */
module Unique {

  predicate NoDup<T(==)>(s: seq<T>) {
    forall i, j :: 0 <= i < j < |s| ==> s[i] != s[j]
  }

  /** Index of the first occurrence of `x` in `s`. */
  function FirstIndex<T(==)>(s: seq<T>, x: T): (k: nat)
    requires x in s
    ensures k < |s| && s[k] == x && x !in s[..k]
  {
    if s[0] == x then 0 else 1 + FirstIndex(s[1..], x)
  }

  /** The values of `r` appear in the order in which they first appear in `s`. */
  ghost predicate InFirstSeenOrder<T>(s: seq<T>, r: seq<T>) {
    forall i, j :: 0 <= i < j < |r| && r[i] in s && r[j] in s ==>
      FirstIndex(s, r[i]) < FirstIndex(s, r[j])
  }

  /** `list(dict.fromkeys(s))`: keep each value at its first occurrence. */
  function Dedup<T(==)>(s: seq<T>): (r: seq<T>)
    ensures NoDup(r)
    ensures forall i :: 0 <= i < |r| ==> r[i] in s
    ensures forall i :: 0 <= i < |s| ==> s[i] in r
    ensures |r| <= |s|
  {
    if s == [] then []
    else
      var d := Dedup(s[..|s| - 1]);
      assert s == s[..|s| - 1] + [s[|s| - 1]];
      if s[|s| - 1] in d then d else d + [s[|s| - 1]]
  }

  lemma {:induction false} FirstIndexExtend<T>(s: seq<T>, x: T, y: T)
    requires y in s
    ensures y in s + [x] && FirstIndex(s + [x], y) == FirstIndex(s, y)
  {
    if s[0] != y {
      assert (s + [x])[1..] == s[1..] + [x];
      FirstIndexExtend(s[1..], x, y);
    }
  }

  /** The de-duplicated sequence lists values in first-seen order. */
  lemma {:induction false} DedupFirstSeen<T>(s: seq<T>)
    ensures InFirstSeenOrder(s, Dedup(s))
  {
    if s != [] {
      var p, x := s[..|s| - 1], s[|s| - 1];
      assert s == p + [x];
      var d := Dedup(p);
      DedupFirstSeen(p);
      forall y | y in p ensures FirstIndex(s, y) == FirstIndex(p, y) {
        FirstIndexExtend(p, x, y);
      }
      if x !in d {
        var r := d + [x];
        assert FirstIndex(s, x) == |p| by {
          assert x !in p;
          assert x !in s[..FirstIndex(s, x)];
        }
        forall i, j | 0 <= i < j < |r| && r[i] in s && r[j] in s
          ensures FirstIndex(s, r[i]) < FirstIndex(s, r[j])
        {
          assert r[i] == d[i] && d[i] in p;
          if j < |d| {
            assert r[j] == d[j];
          }
        }
      }
    }
  }

  /** De-duplicating a sequence without repeats changes nothing. */
  lemma {:induction false} DedupOfDistinct<T>(s: seq<T>)
    requires NoDup(s)
    ensures Dedup(s) == s
  {
    if s != [] {
      var p, x := s[..|s| - 1], s[|s| - 1];
      assert NoDup(p);
      DedupOfDistinct(p);
      assert x !in p;
    }
  }

  /** De-duplication is idempotent. */
  lemma DedupIdempotent<T>(s: seq<T>)
    ensures Dedup(Dedup(s)) == Dedup(s)
  {
    DedupOfDistinct(Dedup(s));
  }

  /** One more value: it is appended exactly when it was not already kept. */
  lemma DedupSnoc<T>(s: seq<T>, x: T)
    ensures Dedup(s + [x]) == if x in s then Dedup(s) else Dedup(s) + [x]
  {
    assert (s + [x])[..|s|] == s;
  }

  lemma DedupMembers<T>(s: seq<T>, x: T)
    ensures x in Dedup(s) <==> x in s
  {
    if x in s {
      var i :| 0 <= i < |s| && s[i] == x;
    }
    if x in Dedup(s) {
      var i :| 0 <= i < |Dedup(s)| && Dedup(s)[i] == x;
    }
  }

  /** De-duplicating a prefix first does not change the overall result. */
  lemma {:induction false} DedupPrefix<T>(a: seq<T>, b: seq<T>)
    ensures Dedup(Dedup(a) + b) == Dedup(a + b)
  {
    if b == [] {
      assert a + b == a && Dedup(a) + b == Dedup(a);
      DedupIdempotent(a);
    } else {
      var c, x := b[..|b| - 1], b[|b| - 1];
      var da := Dedup(a);
      DedupPrefix(a, c);
      assert b == c + [x];
      assert da + b == (da + c) + [x];
      assert a + b == (a + c) + [x];
      DedupSnoc(da + c, x);
      DedupSnoc(a + c, x);
      DedupMembers(a, x);
      assert x in da + c <==> x in a + c;
    }
  }
}
