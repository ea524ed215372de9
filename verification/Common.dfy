/** Values shared by every part of the model. */
module Common {

  datatype Option<+T> = None | Some(value: T)

  datatype Result<+T, +E> = Ok(value: T) | Err(error: E)

  /** A call to another service that works, or raises with or without having taken effect. */
  datatype Remote = Works | Raises(effect: bool)

  predicate Takes(r: Remote) {
    r.Works? || r.effect
  }

  predicate Distinct<T(==)>(s: seq<T>) {
    forall i, j :: 0 <= i < j < |s| ==> s[i] != s[j]
  }

  /** How often a value occurs in a sequence. */
  function Count<T(==)>(x: T, s: seq<T>): nat {
    if s == [] then 0 else (if s[0] == x then 1 else 0) + Count(x, s[1..])
  }

  lemma {:induction false} CountConcat<T>(x: T, a: seq<T>, b: seq<T>)
    ensures Count(x, a + b) == Count(x, a) + Count(x, b)
  {
    if a == [] {
      assert a + b == b;
    } else {
      assert (a + b)[1..] == a[1..] + b;
      CountConcat(x, a[1..], b);
    }
  }

  /** In a sequence without repetitions every member counts once. */
  lemma {:induction false} CountOfDistinct<T>(x: T, s: seq<T>)
    requires Distinct(s)
    ensures Count(x, s) == if x in s then 1 else 0
  {
    if s != [] {
      CountOfDistinct(x, s[1..]);
      assert s == [s[0]] + s[1..];
    }
  }
}
