/** Softmax-weighted sums, in two passes and in one. Arithmetic is over the reals, and the exponential
    is a parameter known only by its laws, so nothing here depends on rounding. */
module OnlineSoftmax {

  ghost predicate Adds(exp: real -> real, a: real, b: real) {
    exp(a + b) == exp(a) * exp(b)
  }

  /** All that is assumed of the exponential. */
  ghost predicate Exponential(exp: real -> real) {
    && exp(0.0) == 1.0
    && (forall a: real :: exp(a) > 0.0)
    && (forall a: real, b: real :: Adds(exp, a, b))
  }

  lemma Shift(exp: real -> real, a: real, b: real, c: real)
    requires Exponential(exp)
    ensures exp(a - b) * exp(b - c) == exp(a - c)
  {
    assert Adds(exp, a - b, b - c);
    assert (a - b) + (b - c) == a - c;
  }

  /** One attended position: its score and its value row. */
  datatype Key = Key(score: real, value: seq<real>)

  function Component(value: seq<real>, d: nat): real {
    if d < |value| then value[d] else 0.0
  }

  // ---- Two passes: find the top, then sum ----

  function HighestScore(keys: seq<Key>): (top: real)
    requires keys != []
    ensures IsTop(top, keys)
  {
    var last := |keys| - 1;
    if last == 0 then keys[0].score
    else
      var before := HighestScore(keys[..last]);
      assert keys == keys[..last] + [keys[last]];
      if before >= keys[last].score then before else keys[last].score
  }

  ghost predicate IsTop(top: real, keys: seq<Key>) {
    && (forall k :: k in keys ==> k.score <= top)
    && (exists k :: k in keys && k.score == top)
  }

  function MassFrom(exp: real -> real, keys: seq<Key>, top: real): real {
    if keys == [] then 0.0
    else MassFrom(exp, keys[..|keys| - 1], top) + exp(keys[|keys| - 1].score - top)
  }

  function MomentFrom(exp: real -> real, keys: seq<Key>, top: real, d: nat): real {
    if keys == [] then 0.0
    else MomentFrom(exp, keys[..|keys| - 1], top, d) + Term(exp, keys[|keys| - 1], top, d)
  }

  function Term(exp: real -> real, k: Key, top: real, d: nat): real {
    exp(k.score - top) * Component(k.value, d)
  }

  /** Component `d` of softmax attention over `keys`. */
  function Attended(exp: real -> real, keys: seq<Key>, d: nat): real
    requires keys != [] && MassFrom(exp, keys, HighestScore(keys)) != 0.0
  {
    MomentFrom(exp, keys, HighestScore(keys), d) / MassFrom(exp, keys, HighestScore(keys))
  }

  /** Moving the reference point rescales every term alike. */
  lemma {:induction false} Retop(exp: real -> real, keys: seq<Key>, from: real, to: real, d: nat)
    requires Exponential(exp)
    ensures MassFrom(exp, keys, from) * exp(from - to) == MassFrom(exp, keys, to)
    ensures MomentFrom(exp, keys, from, d) * exp(from - to) == MomentFrom(exp, keys, to, d)
  {
    if keys != [] {
      var last := |keys| - 1;
      var x, v := keys[last].score, Component(keys[last].value, d);
      Retop(exp, keys[..last], from, to, d);
      Shift(exp, x, from, to);
      Distribute(MassFrom(exp, keys[..last], from), exp(x - from), exp(from - to), 1.0);
      Distribute(MomentFrom(exp, keys[..last], from, d), exp(x - from), exp(from - to), v);
    }
  }

  lemma Distribute(a: real, b: real, c: real, v: real)
    ensures (a + b * v) * c == a * c + (b * c) * v
  {
  }

  lemma {:induction false} MassIsPositive(exp: real -> real, keys: seq<Key>, top: real)
    requires Exponential(exp)
    ensures MassFrom(exp, keys, top) >= 0.0
    ensures forall k :: k in keys ==> MassFrom(exp, keys, top) >= exp(k.score - top)
  {
    if keys != [] {
      MassIsPositive(exp, keys[..|keys| - 1], top);
      assert keys == keys[..|keys| - 1] + [keys[|keys| - 1]];
    }
  }

  /** The top key contributes exactly 1, so the clamp on the divisor never binds. */
  lemma MassAtTop(exp: real -> real, keys: seq<Key>, top: real)
    requires Exponential(exp) && IsTop(top, keys)
    ensures MassFrom(exp, keys, top) >= 1.0
  {
    MassIsPositive(exp, keys, top);
    var k :| k in keys && k.score == top;
    assert k.score - top == 0.0;
  }

  /** The choice of reference point is invisible in the result. */
  lemma ReferencePointIsInvisible(exp: real -> real, keys: seq<Key>, point: real, d: nat)
    requires Exponential(exp) && keys != []
    ensures MassFrom(exp, keys, HighestScore(keys)) >= 1.0 && MassFrom(exp, keys, point) > 0.0
    ensures MomentFrom(exp, keys, point, d) / MassFrom(exp, keys, point) == Attended(exp, keys, d)
  {
    hide MassFrom, MomentFrom, HighestScore;
    var top := HighestScore(keys);
    var mass, moment := MassFrom(exp, keys, top), MomentFrom(exp, keys, top, d);
    MassAtTop(exp, keys, top);
    Retop(exp, keys, top, point, d);
    Quotient(moment, mass, exp(top - point));
  }

  lemma Quotient(a: real, b: real, c: real)
    requires b > 0.0 && c > 0.0
    ensures b * c > 0.0 && (a * c) / (b * c) == a / b
  {
    var q := a / b;
    assert q * b == a;
    assert q * (b * c) == a * c;
  }

  // ---- Order does not matter ----

  function Omit<T>(s: seq<T>, i: nat): seq<T>
    requires i < |s|
  {
    s[..i] + s[i + 1..]
  }

  lemma {:induction false} TakeOut(exp: real -> real, keys: seq<Key>, i: nat, top: real, d: nat)
    requires i < |keys|
    ensures MassFrom(exp, keys, top) == MassFrom(exp, Omit(keys, i), top) + exp(keys[i].score - top)
    ensures MomentFrom(exp, keys, top, d) == MomentFrom(exp, Omit(keys, i), top, d) + Term(exp, keys[i], top, d)
  {
    hide Term;
    var last := |keys| - 1;
    if i == last {
      assert Omit(keys, i) == keys[..last];
    } else {
      assert Omit(keys, i)[..last - 1] == Omit(keys[..last], i);
      assert Omit(keys, i)[last - 1] == keys[last];
      TakeOut(exp, keys[..last], i, top, d);
    }
  }

  /** Sums over the same keys in another order are the same. */
  lemma {:induction false} Permuted(exp: real -> real, a: seq<Key>, b: seq<Key>, top: real, d: nat)
    requires multiset(a) == multiset(b)
    ensures MassFrom(exp, a, top) == MassFrom(exp, b, top)
    ensures MomentFrom(exp, a, top, d) == MomentFrom(exp, b, top, d)
  {
    hide Term;
    if a == [] {
      assert |multiset(b)| == 0;
    } else {
      var i := Partner(a, b);
      Permuted(exp, a[..|a| - 1], Omit(b, i), top, d);
      TakeOut(exp, b, i, top, d);
    }
  }

  lemma MultisetOmit<T>(s: seq<T>, i: nat)
    requires i < |s|
    ensures multiset(Omit(s, i)) == multiset(s) - multiset{s[i]}
  {
    assert s == s[..i] + [s[i]] + s[i + 1..];
  }

  lemma Partner<T>(a: seq<T>, b: seq<T>) returns (i: nat)
    requires a != [] && multiset(a) == multiset(b)
    ensures i < |b| && b[i] == a[|a| - 1] && multiset(a[..|a| - 1]) == multiset(Omit(b, i))
  {
    var last := |a| - 1;
    assert Omit(a, last) == a[..last];
    MultisetOmit(a, last);
    assert a[last] in multiset(b);
    i :| 0 <= i < |b| && b[i] == a[last];
    MultisetOmit(b, i);
  }

  lemma PermutedTop(a: seq<Key>, b: seq<Key>, top: real)
    requires multiset(a) == multiset(b) && IsTop(top, a)
    ensures IsTop(top, b)
  {
    forall k | k in b ensures k.score <= top {
      assert k in multiset(b);
    }
    var k :| k in a && k.score == top;
    assert k in multiset(a);
  }

  // ---- One pass ----

  /** The running maximum; `Empty` is the finite sentinel below every score. */
  datatype Peak = Empty | At(score: real)

  /** A partial online-softmax state. */
  datatype Partial = Partial(m: Peak, l: real, acc: seq<real>)

  function Start(dim: nat): Partial {
    Partial(Empty, 0.0, seq(dim, _ => 0.0))
  }

  function Higher(m: Peak, score: real): real {
    match m
    case Empty => score
    case At(top) => if top >= score then top else score
  }

  /** `exp(m - top)`; from the sentinel it is exactly 0. */
  function Rescale(exp: real -> real, m: Peak, top: real): real {
    match m
    case Empty => 0.0
    case At(score) => exp(score - top)
  }

  /** The recurrence: one more key into a running state. */
  function Absorb(exp: real -> real, st: Partial, k: Key): (st': Partial)
    ensures |st'.acc| == |st.acc|
  {
    var mNew := Higher(st.m, k.score);
    var alpha := Rescale(exp, st.m, mNew);
    Partial(At(mNew), st.l * alpha + exp(k.score - mNew),
      seq(|st.acc|, d requires 0 <= d < |st.acc| => st.acc[d] * alpha + Term(exp, k, mNew, d)))
  }

  /** The state holds the two-pass sums of the keys it has seen. */
  ghost predicate Summarizes(exp: real -> real, st: Partial, keys: seq<Key>) {
    match st.m
    case Empty => keys == [] && st.l == 0.0 && forall d :: 0 <= d < |st.acc| ==> st.acc[d] == 0.0
    case At(top) =>
      && IsTop(top, keys) && st.l == MassFrom(exp, keys, top)
      && forall d :: 0 <= d < |st.acc| ==> st.acc[d] == MomentFrom(exp, keys, top, d)
  }

  /** The rescaling recurrence keeps the state the two-pass sums, key by key. */
  lemma AbsorbSummarizes(exp: real -> real, st: Partial, keys: seq<Key>, k: Key)
    requires Exponential(exp) && Summarizes(exp, st, keys)
    ensures Summarizes(exp, Absorb(exp, st, k), keys + [k])
  {
    hide Exponential, Rescale, Higher, IsTop, MassFrom, MomentFrom, Term;
    HigherIsTop(st.m, keys, k, exp, st);
    AbsorbMass(exp, st, keys, k);
    forall d | 0 <= d < |st.acc|
      ensures Absorb(exp, st, k).acc[d] == MomentFrom(exp, keys + [k], Higher(st.m, k.score), d)
    {
      AbsorbMoment(exp, st, keys, k, d);
    }
  }

  lemma AbsorbMass(exp: real -> real, st: Partial, keys: seq<Key>, k: Key)
    requires Exponential(exp) && Summarizes(exp, st, keys)
    ensures Absorb(exp, st, k).l == MassFrom(exp, keys + [k], Higher(st.m, k.score))
  {
    hide Exponential, Summarizes, Rescale, Higher, MassFrom, MomentFrom, Term;
    AppendedSums(exp, keys, k, Higher(st.m, k.score), 0);
    RescaleMass(exp, st, keys, Higher(st.m, k.score));
  }

  lemma AbsorbMoment(exp: real -> real, st: Partial, keys: seq<Key>, k: Key, d: nat)
    requires Exponential(exp) && Summarizes(exp, st, keys) && d < |st.acc|
    ensures Absorb(exp, st, k).acc[d] == MomentFrom(exp, keys + [k], Higher(st.m, k.score), d)
  {
    hide Exponential, Summarizes, Rescale, Higher, MassFrom, MomentFrom, Term;
    AppendedSums(exp, keys, k, Higher(st.m, k.score), d);
    RescaleSums(exp, st, keys, Higher(st.m, k.score), d);
  }

  lemma AppendedSums(exp: real -> real, keys: seq<Key>, k: Key, top: real, d: nat)
    ensures MassFrom(exp, keys + [k], top) == MassFrom(exp, keys, top) + exp(k.score - top)
    ensures MomentFrom(exp, keys + [k], top, d) == MomentFrom(exp, keys, top, d) + Term(exp, k, top, d)
  {
    assert (keys + [k])[..|keys|] == keys;
  }

  lemma HigherIsTop(m: Peak, keys: seq<Key>, k: Key, exp: real -> real, st: Partial)
    requires st.m == m && Summarizes(exp, st, keys)
    ensures IsTop(Higher(m, k.score), keys + [k])
  {
    if m.At? && m.score >= k.score {
      var top :| top in keys && top.score == m.score;
      assert top in keys + [k];
    } else {
      assert k in keys + [k];
    }
  }

  lemma RescaleMass(exp: real -> real, st: Partial, keys: seq<Key>, top: real)
    requires Exponential(exp) && Summarizes(exp, st, keys)
    ensures st.l * Rescale(exp, st.m, top) == MassFrom(exp, keys, top)
  {
    if st.m.At? {
      Retop(exp, keys, st.m.score, top, 0);
    }
  }

  lemma RescaleSums(exp: real -> real, st: Partial, keys: seq<Key>, top: real, d: nat)
    requires Exponential(exp) && Summarizes(exp, st, keys) && d < |st.acc|
    ensures st.l * Rescale(exp, st.m, top) == MassFrom(exp, keys, top)
    ensures st.acc[d] * Rescale(exp, st.m, top) == MomentFrom(exp, keys, top, d)
  {
    if st.m.At? {
      hide Exponential, MassFrom, MomentFrom, IsTop;
      Retop(exp, keys, st.m.score, top, d);
    }
  }

  const CLAMP: real := 0.000000000000000000000000000001

  /** Normalizing the state: `l` is clamped away from zero, though it is never below 1. */
  function Normalized(st: Partial, d: nat): real
    requires d < |st.acc|
  {
    st.acc[d] * (1.0 / (if st.l >= CLAMP then st.l else CLAMP))
  }

  /** One pass gives what two passes give. */
  lemma OnePassIsTwoPass(exp: real -> real, st: Partial, keys: seq<Key>, d: nat)
    requires Exponential(exp) && Summarizes(exp, st, keys) && keys != [] && d < |st.acc|
    ensures st.l >= 1.0 && MassFrom(exp, keys, HighestScore(keys)) >= 1.0
    ensures Normalized(st, d) == Attended(exp, keys, d)
  {
    hide MassFrom, MomentFrom, HighestScore, Exponential;
    var top := HighestScore(keys);
    assert st.m.At? && st.m.score == top;
    MassAtTop(exp, keys, top);
    Reciprocal(st.acc[d], st.l);
  }

  lemma Reciprocal(a: real, b: real)
    requires b > 0.0
    ensures a * (1.0 / b) == a / b
  {
  }
}
