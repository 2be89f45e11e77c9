/** Small pieces of Python semantics shared by the rest of the model. */
module Util {

  datatype Option<T> = None | Some(value: T)

  /** Python list indexing on a list of length n: an index in -n..n-1 is
      accepted, a negative one counting from the end; any other index raises
      IndexError, modelled as None. */
  function PyIndex(n: nat, i: int): (r: Option<nat>)
    ensures r.Some? <==> -(n as int) <= i < n
    ensures r.Some? ==> r.value < n
    ensures -(n as int) <= i < n ==> r == Some(i % n)
  {
    if 0 <= i < n then Some(i)
    else if -(n as int) <= i < 0 then Some(n + i)
    else None
  }

  function DigitChar(d: nat): (c: char)
    requires d < 10
    ensures '0' <= c <= '9'
  {
    "0123456789"[d]
  }

  /** Python str() of a non-negative int: its decimal digits. */
  function NatToString(n: nat): (s: string)
    ensures |s| > 0
    ensures forall k :: 0 <= k < |s| ==> '0' <= s[k] <= '9'
    decreases n
  {
    if n < 10 then [DigitChar(n)] else NatToString(n / 10) + [DigitChar(n % 10)]
  }

  /** Python str() of an int. */
  function IntToString(i: int): string
  {
    if i < 0 then "-" + NatToString(-i) else NatToString(i)
  }

  /** The concatenation entry(start, xs[0]) + entry(start + 1, xs[1]) + ...:
      the text a Python loop builds with a running counter. */
  function Numbered<T>(xs: seq<T>, start: int, entry: (int, T) -> string): string
    decreases |xs|
  {
    if xs == [] then "" else entry(start, xs[0]) + Numbered(xs[1..], start + 1, entry)
  }

  /** Appending one more element appends exactly its numbered entry: the step
      of every loop that accumulates such a text. */
  lemma {:induction false} NumberedSnoc<T>(xs: seq<T>, start: int, entry: (int, T) -> string, x: T)
    ensures Numbered(xs + [x], start, entry) == Numbered(xs, start, entry) + entry(start + |xs|, x)
    decreases |xs|
  {
    if xs == [] {
      assert xs + [x] == [x];
      assert [x][1..] == [];
    } else {
      assert (xs + [x])[0] == xs[0];
      assert (xs + [x])[1..] == xs[1..] + [x];
      NumberedSnoc(xs[1..], start + 1, entry, x);
    }
  }

  /** NumberedSnoc for a loop that walks xs by index. */
  lemma NumberedPrefixStep<T>(xs: seq<T>, i: nat, start: int, entry: (int, T) -> string)
    requires i < |xs|
    ensures Numbered(xs[..i + 1], start, entry) == Numbered(xs[..i], start, entry) + entry(start + i, xs[i])
  {
    NumberedSnoc(xs[..i], start, entry, xs[i]);
    assert xs[..i] + [xs[i]] == xs[..i + 1];
  }
}
