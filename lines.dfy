/** The list idioms the answer extractors share: the stripped lines of a
    response, filtering, Python slicing `xs[:n]`, and first/last searches. */
module Lines {
  import opened Wrappers
  import opened Text

  /** `[line.strip() for line in response.split('\n')]`. */
  function StrippedLines(response: string): (ls: seq<string>)
    ensures |ls| == |Split(response, '\n')|
    ensures forall i :: 0 <= i < |ls| ==> ls[i] == Strip(Split(response, '\n')[i])
  {
    var raw := Split(response, '\n');
    seq(|raw|, i requires 0 <= i < |raw| => Strip(raw[i]))
  }

  /** The elements of `xs` that `keep` accepts, in order (built from the
      right, the way a loop appending to a list grows it). */
  function Filter(xs: seq<string>, keep: string -> bool): (r: seq<string>)
    ensures |r| <= |xs|
  {
    if xs == [] then []
    else
      var init := Filter(xs[..|xs| - 1], keep);
      if keep(xs[|xs| - 1]) then init + [xs[|xs| - 1]] else init
  }

  /** Everything the filter keeps is accepted by `keep` and comes from `xs`,
      and everything in `xs` that `keep` accepts is kept. */
  lemma {:induction false} FilterMembers(xs: seq<string>, keep: string -> bool)
    ensures forall x :: x in Filter(xs, keep) <==> x in xs && keep(x)
  {
    if xs != [] {
      var init := xs[..|xs| - 1];
      FilterMembers(init, keep);
      assert xs == init + [xs[|xs| - 1]];
    }
  }

  /** Filtering distributes over concatenation. */
  lemma {:induction false} FilterAppend(xs: seq<string>, ys: seq<string>, keep: string -> bool)
    ensures Filter(xs + ys, keep) == Filter(xs, keep) + Filter(ys, keep)
    decreases |ys|
  {
    if ys == [] {
      assert xs + ys == xs;
    } else {
      var ys' := ys[..|ys| - 1];
      var last := ys[|ys| - 1];
      FilterAppend(xs, ys', keep);
      assert (xs + ys)[..|xs + ys| - 1] == xs + ys';
      assert (xs + ys)[|xs + ys| - 1] == last;
      var tail := if keep(last) then [last] else [];
      calc {
        Filter(xs + ys, keep);
        Filter(xs + ys', keep) + tail;
        (Filter(xs, keep) + Filter(ys', keep)) + tail;
        Filter(xs, keep) + (Filter(ys', keep) + tail);
      }
    }
  }

  /** Python's `xs[:n]`. */
  function Take<T>(xs: seq<T>, n: nat): (r: seq<T>)
    ensures |r| <= n && |r| <= |xs| && (n <= |xs| ==> |r| == n)
    ensures r == xs[..|r|]
    ensures |xs| <= n ==> r == xs
  {
    xs[..Min(n, |xs|)]
  }

  /** The index of the first element `p` accepts, `|xs|` when there is none. */
  function FirstIndex(xs: seq<string>, p: string -> bool): (i: nat)
    ensures i <= |xs|
    ensures i < |xs| ==> p(xs[i])
    ensures forall j :: 0 <= j < i ==> !p(xs[j])
  {
    if xs == [] then 0
    else if p(xs[0]) then 0
    else 1 + FirstIndex(xs[1..], p)
  }

  /** The index of the last element `p` accepts. */
  function LastIndex(xs: seq<string>, p: string -> bool): (r: Option<nat>)
    ensures r.Some? ==> r.value < |xs| && p(xs[r.value])
    ensures r.Some? ==> forall j :: r.value < j < |xs| ==> !p(xs[j])
    ensures r.None? ==> forall j :: 0 <= j < |xs| ==> !p(xs[j])
  {
    if xs == [] then None
    else if p(xs[|xs| - 1]) then Some(|xs| - 1)
    else LastIndex(xs[..|xs| - 1], p)
  }

  /** A scan that has not yet met an accepted element may go one further. */
  lemma FirstIndexPast(xs: seq<string>, p: string -> bool, i: nat)
    requires i <= FirstIndex(xs, p) && i < |xs| && !p(xs[i])
    ensures i + 1 <= FirstIndex(xs, p)
  {
  }
}
