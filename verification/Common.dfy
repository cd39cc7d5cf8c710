/** Vocabulary shared by the models: optional values, and totals over a sequence. */
module Common {

  datatype Option<+T> = None | Some(value: T) {
    function GetOr(default: T): T {
      match this
      case None => default
      case Some(v) => v
    }
  }

  /** The total of `f` over the elements of `s`. */
  function Sum<T>(s: seq<T>, f: T -> nat): nat
  {
    if s == [] then 0 else f(s[0]) + Sum(s[1..], f)
  }

  /** Replacing one element moves the total by the difference of the two weights. */
  lemma {:induction false} SumUpdate<T>(s: seq<T>, i: nat, x: T, f: T -> nat)
    requires i < |s|
    ensures Sum(s[i := x], f) + f(s[i]) == Sum(s, f) + f(x)
  {
    if i == 0 {
      assert s[0 := x][1..] == s[1..];
    } else {
      assert s[i := x][1..] == s[1..][i - 1 := x];
      SumUpdate(s[1..], i - 1, x, f);
    }
  }

  lemma {:induction false} SumAppend<T>(s: seq<T>, x: T, f: T -> nat)
    ensures Sum(s + [x], f) == Sum(s, f) + f(x)
  {
    if s == [] {
      assert s + [x] == [x];
      assert [x][1..] == [];
    } else {
      assert (s + [x])[1..] == s[1..] + [x];
      SumAppend(s[1..], x, f);
    }
  }

  /** A pointwise bound bounds the total, and the totals meet only if every element does. */
  lemma {:induction false} SumBound<T>(s: seq<T>, f: T -> nat, g: T -> nat)
    requires forall i :: 0 <= i < |s| ==> f(s[i]) <= g(s[i])
    ensures Sum(s, f) <= Sum(s, g)
    ensures Sum(s, f) == Sum(s, g) <==> forall i :: 0 <= i < |s| ==> f(s[i]) == g(s[i])
  {
    if s != [] {
      var t := s[1..];
      assert forall i :: 0 <= i < |t| ==> t[i] == s[i + 1];
      SumBound(t, f, g);
      if Sum(s, f) == Sum(s, g) {
        forall i | 0 <= i < |s| ensures f(s[i]) == g(s[i]) {
          if i > 0 { assert s[i] == t[i - 1]; }
        }
      }
    }
  }

  lemma {:induction false} SumZero<T>(s: seq<T>, f: T -> nat)
    requires forall i :: 0 <= i < |s| ==> f(s[i]) == 0
    ensures Sum(s, f) == 0
  {
    if s != [] {
      SumZero(s[1..], f);
    }
  }

  lemma {:induction false} SumOnes<T>(s: seq<T>, f: T -> nat)
    requires forall i :: 0 <= i < |s| ==> f(s[i]) == 1
    ensures Sum(s, f) == |s|
  {
    if s != [] {
      SumOnes(s[1..], f);
    }
  }

  /** Two different elements' weights are both part of the total. */
  lemma {:induction false} SumPair<T>(s: seq<T>, i: nat, j: nat, f: T -> nat)
    requires i < |s| && j < |s| && i != j
    ensures f(s[i]) + f(s[j]) <= Sum(s, f)
    decreases |s|
  {
    if i == 0 {
      assert s[j] == s[1..][j - 1];
      SumOne(s[1..], j - 1, f);
    } else if j == 0 {
      assert s[i] == s[1..][i - 1];
      SumOne(s[1..], i - 1, f);
    } else {
      assert s[i] == s[1..][i - 1] && s[j] == s[1..][j - 1];
      SumPair(s[1..], i - 1, j - 1, f);
    }
  }

  lemma {:induction false} SumOne<T>(s: seq<T>, i: nat, f: T -> nat)
    requires i < |s|
    ensures f(s[i]) <= Sum(s, f)
  {
    if i > 0 {
      assert s[i] == s[1..][i - 1];
      SumOne(s[1..], i - 1, f);
    }
  }

  /** Some element carries weight whenever the total is positive. */
  lemma {:induction false} SumPositive<T>(s: seq<T>, f: T -> nat) returns (i: nat)
    requires Sum(s, f) > 0
    ensures i < |s| && f(s[i]) > 0
  {
    if f(s[0]) > 0 {
      i := 0;
    } else {
      i := SumPositive(s[1..], f);
      i := i + 1;
    }
  }
}
