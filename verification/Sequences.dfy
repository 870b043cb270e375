/** Filtering sequences, and splitting text at a delimiter. */
module Sequences {

  datatype Option<+T> = None | Some(value: T)

  /** The elements of xs that satisfy p, in order. */
  function Filter<T>(p: T -> bool, xs: seq<T>): seq<T> {
    if |xs| == 0 then []
    else
      var kept := Filter(p, xs[..|xs| - 1]);
      if p(xs[|xs| - 1]) then kept + [xs[|xs| - 1]] else kept
  }

  lemma FilterSnoc<T>(p: T -> bool, xs: seq<T>, x: T)
    ensures Filter(p, xs + [x]) == Filter(p, xs) + (if p(x) then [x] else [])
  {
    assert (xs + [x])[..|xs|] == xs;
  }

  lemma {:induction false} FilterConcat<T>(p: T -> bool, xs: seq<T>, ys: seq<T>)
    ensures Filter(p, xs + ys) == Filter(p, xs) + Filter(p, ys)
  {
    if |ys| == 0 {
      assert xs + ys == xs;
    } else {
      var front, last := ys[..|ys| - 1], ys[|ys| - 1];
      assert xs + ys == (xs + front) + [last];
      FilterSnoc(p, xs + front, last);
      FilterConcat(p, xs, front);
    }
  }

  lemma {:induction false} FilterMembers<T>(p: T -> bool, xs: seq<T>)
    ensures forall x :: x in Filter(p, xs) <==> x in xs && p(x)
  {
    if |xs| != 0 {
      FilterMembers(p, xs[..|xs| - 1]);
      assert xs == xs[..|xs| - 1] + [xs[|xs| - 1]];
    }
  }

  lemma {:induction false} FilterCommutes<T>(p: T -> bool, q: T -> bool, xs: seq<T>)
    ensures Filter(p, Filter(q, xs)) == Filter(q, Filter(p, xs))
  {
    if |xs| != 0 {
      var front, last := xs[..|xs| - 1], xs[|xs| - 1];
      FilterCommutes(p, q, front);
      FilterSnoc(p, Filter(q, front), last);
      FilterSnoc(q, Filter(p, front), last);
    }
  }

  lemma {:induction false} FilterAll<T>(p: T -> bool, xs: seq<T>)
    requires forall i :: 0 <= i < |xs| ==> p(xs[i])
    ensures Filter(p, xs) == xs
  {
    if |xs| != 0 {
      FilterAll(p, xs[..|xs| - 1]);
    }
  }

  lemma {:induction false} FilterNone<T>(p: T -> bool, xs: seq<T>)
    requires forall i :: 0 <= i < |xs| ==> !p(xs[i])
    ensures Filter(p, xs) == []
  {
    if |xs| != 0 {
      FilterNone(p, xs[..|xs| - 1]);
    }
  }

  /** Two predicates that agree on the elements keep the same elements. */
  lemma {:induction false} FilterAgree<T>(p: T -> bool, q: T -> bool, xs: seq<T>)
    requires forall i :: 0 <= i < |xs| ==> p(xs[i]) == q(xs[i])
    ensures Filter(p, xs) == Filter(q, xs)
  {
    if |xs| != 0 {
      FilterAgree(p, q, xs[..|xs| - 1]);
    }
  }

  /** Filtering a prefix gives a prefix. */
  lemma FilterPrefix<T>(p: T -> bool, xs: seq<T>, ys: seq<T>)
    requires xs <= ys
    ensures Filter(p, xs) <= Filter(p, ys)
  {
    assert ys == xs + ys[|xs|..];
    FilterConcat(p, xs, ys[|xs|..]);
  }

  /** The pieces of s between occurrences of d, as strings.Split returns them. */
  function Split(s: string, d: char): (pieces: seq<string>)
    ensures |pieces| >= 1
  {
    if s == "" then [""]
    else
      var rest := Split(s[1..], d);
      if s[0] == d then [""] + rest else [[s[0]] + rest[0]] + rest[1..]
  }

  function Join(pieces: seq<string>, d: char): string
    requires |pieces| >= 1
  {
    if |pieces| == 1 then pieces[0] else pieces[0] + [d] + Join(pieces[1..], d)
  }

  /** Splitting loses nothing, and no piece holds the delimiter. */
  lemma {:induction false} JoinSplit(s: string, d: char)
    ensures Join(Split(s, d), d) == s
    ensures forall i :: 0 <= i < |Split(s, d)| ==> d !in Split(s, d)[i]
  {
    if s != "" {
      JoinSplit(s[1..], d);
      var rest := Split(s[1..], d);
      assert s == [s[0]] + s[1..];
      if s[0] == d {
        assert Split(s, d)[1..] == rest;
      } else {
        assert Split(s, d)[1..] == rest[1..];
        if |rest| > 1 {
          assert Join(rest, d) == rest[0] + [d] + Join(rest[1..], d);
          assert Join(Split(s, d), d) == ([s[0]] + rest[0]) + [d] + Join(rest[1..], d);
        }
      }
    }
  }

  /** A delimiter cuts the text in two independent halves. */
  lemma {:induction false} SplitConcat(a: string, d: char, b: string)
    requires d !in a
    ensures Split(a + [d] + b, d) == [a] + Split(b, d)
  {
    var s := a + [d] + b;
    if a == "" {
      assert s[1..] == b;
    } else {
      assert s[1..] == a[1..] + [d] + b;
      SplitConcat(a[1..], d, b);
      assert [a[0]] + a[1..] == a;
    }
  }

  lemma {:induction false} SplitWhole(a: string, d: char)
    ensures Split(a, d) == [a] <==> d !in a
  {
    JoinSplit(a, d);
    assert d !in Split(a, d)[0];
    if d !in a {
      SplitOfPlain(a, d);
    }
  }

  lemma {:induction false} SplitOfPlain(a: string, d: char)
    requires d !in a
    ensures Split(a, d) == [a]
  {
    if a != "" {
      SplitOfPlain(a[1..], d);
      assert [a[0]] + a[1..] == a;
    }
  }
}
