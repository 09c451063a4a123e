/** What one look at the kernel returns, line by line, and the digests taken of it. */
module Observation {
  import opened Text

  datatype MarkUse = MarkUse(kind: string, value: bv32, mask: bv32)

  /** Everything besides the three command outputs that a classification reads:
      the routing table aliases, the mark uses recognised in a line, and the
      steps whose exact rule the `-C` check finds. */
  datatype Context = Context(
    aliases: map<string, nat>,
    marks: (string, string) -> seq<MarkUse>,
    exact: set<nat>)

  datatype Error =
    | InvalidPlan
    | InvalidObservation
    | RuleMismatch
    | PolicyMismatch
    | RouteMismatch
    | Duplicate(index: nat)
    | Unrecognized
    | ForeignReference
    | PrefixCollision
    | MarkOverlap
    | UnresolvedAlias
    | ForeignRoute
    | RouteUnverified
    | MixedObservation

  datatype Result<+T> = Ok(value: T) | Err(error: Error)

  /** A hash is modelled as the value it was taken of, so equal digests mean
      equal contents. */
  datatype Digest =
    | Texts(outputs: seq<string>)
    | Footprint(rows: seq<seq<string>>)

  /** One line of output together with the command (bucket) it came from:
      0 firewall rules, 1 policy rules, 2 routes. */
  datatype Entry = Entry(bucket: nat, line: string)

  function Tag(bucket: nat, lines: seq<string>): (r: seq<Entry>)
    ensures |r| == |lines|
    ensures forall k :: 0 <= k < |r| ==> r[k] == Entry(bucket, lines[k])
  {
    seq(|lines|, k requires 0 <= k < |lines| => Entry(bucket, lines[k]))
  }

  /** The lines of the first n outputs, in the order the loops visit them. */
  function EntriesBefore(outputs: seq<string>, n: nat): seq<Entry>
    requires n <= |outputs|
  {
    if n == 0 then [] else EntriesBefore(outputs, n - 1) + Tag(n - 1, SplitLines(outputs[n - 1]))
  }

  /** The lines from output n on. */
  function EntriesFrom(outputs: seq<string>, n: nat): seq<Entry>
    requires n <= |outputs|
    decreases |outputs| - n
  {
    if n == |outputs| then [] else Tag(n, SplitLines(outputs[n])) + EntriesFrom(outputs, n + 1)
  }

  lemma EntriesNext(outputs: seq<string>, n: nat)
    requires n < |outputs|
    ensures var middle := Tag(n, SplitLines(outputs[n]));
      && EntriesBefore(outputs, n + 1) == EntriesBefore(outputs, n) + middle
      && EntriesFrom(outputs, n) == middle + EntriesFrom(outputs, n + 1)
  {
  }

  lemma {:induction false} EntriesSplit(outputs: seq<string>, n: nat)
    requires n <= |outputs|
    ensures EntriesBefore(outputs, n) + EntriesFrom(outputs, n) == Entries(outputs)
    decreases |outputs| - n
  {
    hide Tag, SplitLines, EntriesBefore;
    if n < |outputs| {
      hide EntriesFrom;
      EntriesSplit(outputs, n + 1);
      EntriesNext(outputs, n);
      var a, middle, c := EntriesBefore(outputs, n), Tag(n, SplitLines(outputs[n])), EntriesFrom(outputs, n + 1);
      assert a + (middle + c) == (a + middle) + c;
    }
  }

  function Entries(outputs: seq<string>): seq<Entry> {
    EntriesBefore(outputs, |outputs|)
  }

  type Counts = s: seq<nat> | |s| == 8 witness [0, 0, 0, 0, 0, 0, 0, 0]

  const NO_COUNTS: Counts := [0, 0, 0, 0, 0, 0, 0, 0]

  /** `countsMatch`: exactly the first `owned` resources are present, once each. */
  predicate CountsMatch(counts: Counts, owned: int) {
    forall i :: 0 <= i < 8 ==> counts[i] == if i < owned then 1 else 0
  }

  /** A profile matches at most one number of owned steps. */
  lemma CountsMatchOnce(counts: Counts, m: int, n: int)
    requires CountsMatch(counts, m) && CountsMatch(counts, n)
    requires 0 <= m <= 8 && 0 <= n <= 8
    ensures m == n
  {
    assert m < 8 ==> counts[m] == if m < n then 1 else 0;
    assert n < 8 ==> counts[n] == if n < m then 1 else 0;
  }
}
