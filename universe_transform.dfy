/**
 * pkg/universe/transform.go: the value-level stream operators. An envelope carries a value and
 * an optional error; `Map` runs a transformer on the value alone and `Filter` tests the value
 * alone. A channel is modelled by the finite sequence of envelopes sent on it.
 */
module UniverseTransform {
  import opened Wrappers
  import GoErrors

  datatype Envelope<T> = Envelope(value: T, err: Option<GoErrors.Error>)

  /** A `Transformer`: a new value and, possibly, an error. */
  type Transformer<!T> = T -> (T, Option<GoErrors.Error>)

  /** The envelope `Map` sends for one input: the transformer's value and error. */
  function Transformed<T>(fn: Transformer<T>, e: Envelope<T>): Envelope<T>
  {
    Envelope(fn(e.value).0, fn(e.value).1)
  }

  /** `Map(fn)` run over a stream. */
  function Map<T>(fn: Transformer<T>, s: seq<Envelope<T>>): (r: seq<Envelope<T>>)
    ensures |r| == |s|
    ensures forall i :: 0 <= i < |s| ==> r[i] == Envelope(fn(s[i].value).0, fn(s[i].value).1)
  {
    if s == [] then [] else [Transformed(fn, s[0])] + Map(fn, s[1..])
  }

  /** `Filter(p)` run over a stream. */
  function Filter<T>(p: T -> bool, s: seq<Envelope<T>>): (r: seq<Envelope<T>>)
    ensures |r| <= |s|
  {
    if s == [] then [] else (if p(s[0].value) then [s[0]] else []) + Filter(p, s[1..])
  }

  /** The error an input envelope carries never reaches the output of `Map`. */
  lemma MapIgnoresInputErr<T>(fn: Transformer<T>, s: seq<Envelope<T>>, t: seq<Envelope<T>>)
    requires |s| == |t| && forall i :: 0 <= i < |s| ==> s[i].value == t[i].value
    ensures Map(fn, s) == Map(fn, t)
  {
  }

  /** `Map` works element by element: it maps the pieces of a stream in their order. */
  lemma MapConcat<T>(fn: Transformer<T>, s: seq<Envelope<T>>, t: seq<Envelope<T>>)
    ensures Map(fn, s + t) == Map(fn, s) + Map(fn, t)
  {
  }

  /**
   * `Filter` keeps exactly the envelopes whose value passes, errors and all; what it keeps comes
   * out in input order (it splits over concatenation).
   */
  lemma {:induction false} FilterMembers<T>(p: T -> bool, s: seq<Envelope<T>>)
    ensures forall e :: e in Filter(p, s) <==> e in s && p(e.value)
  {
    if s != [] {
      FilterMembers(p, s[1..]);
      assert s == [s[0]] + s[1..];
    }
  }

  lemma {:induction false} FilterConcat<T>(p: T -> bool, s: seq<Envelope<T>>, t: seq<Envelope<T>>)
    ensures Filter(p, s + t) == Filter(p, s) + Filter(p, t)
  {
    if s == [] {
      assert s + t == t;
    } else {
      var head := if p(s[0].value) then [s[0]] else [];
      assert (s + t)[0] == s[0] && (s + t)[1..] == s[1..] + t;
      assert Filter(p, s + t) == head + Filter(p, s[1..] + t);
      FilterConcat(p, s[1..], t);
      assert Filter(p, s) == head + Filter(p, s[1..]);
    }
  }
}
