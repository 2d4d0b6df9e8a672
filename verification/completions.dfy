/** Tab completion of the plugin's commands: a case-insensitive prefix
    filter over candidate words, and the ids of a map collected in the
    map's own (unspecified) iteration order. */
module Completions {
  import opened Text
  import opened Seqs

  /** A candidate is offered for the typed text when its lower-case form
      starts with the lower-case text. */
  predicate Completes(candidate: string, current: string) {
    StartsWith(ToLower(candidate), ToLower(current))
  }

  /** The candidates the typed text completes, in their original order. */
  function Matching(completions: seq<string>, current: string): (r: seq<string>)
    ensures |r| <= |completions|
    ensures forall s :: s in r <==> s in completions && Completes(s, current)
  {
    if completions == [] then []
    else
      var n := |completions| - 1;
      var init := Matching(completions[..n], current);
      assert completions == completions[..n] + [completions[n]];
      if Completes(completions[n], current) then init + [completions[n]] else init
  }

  /** `filterCompletions`: the input itself for empty typed text, otherwise
      the candidates it completes, in order. */
  method FilterCompletions(completions: seq<string>, current: string) returns (filtered: seq<string>)
    ensures filtered == Matching(completions, current)
  {
    if current == [] {
      EmptyTextKeepsAll(completions);
      return completions;
    }
    filtered := [];
    var lowerCurrent := ToLower(current);
    for i := 0 to |completions|
      invariant filtered == Matching(completions[..i], current)
    {
      assert completions[..i + 1][..i] == completions[..i];
      if StartsWith(ToLower(completions[i]), lowerCurrent) {
        filtered := filtered + [completions[i]];
      }
    }
    assert completions[..|completions|] == completions;
  }

  /** Empty typed text completes every candidate, so the early return of
      `filterCompletions` agrees with its loop. */
  lemma {:induction false} EmptyTextKeepsAll(completions: seq<string>)
    ensures Matching(completions, []) == completions
  {
    if completions != [] {
      var n := |completions| - 1;
      EmptyTextKeepsAll(completions[..n]);
      assert ToLower([]) == [];
      assert completions == completions[..n] + [completions[n]];
    }
  }

  /** The filtered list is a subsequence of the candidates: `idx` gives the
      position each kept candidate came from, in increasing order. */
  lemma {:induction false} MatchingIsSubsequence(completions: seq<string>, current: string)
    returns (idx: seq<int>)
    ensures Embeds(Matching(completions, current), completions, idx)
  {
    if completions == [] {
      idx := [];
    } else {
      var n := |completions| - 1;
      var init := completions[..n];
      var last := completions[n];
      idx := MatchingIsSubsequence(init, current);
      assert completions == init + [last];
      if Completes(last, current) {
        EmbedsSnoc(Matching(init, current), init, idx, last);
        idx := idx + [n];
      } else {
        EmbedsExtend(Matching(init, current), init, idx, last);
      }
    }
  }

  /** The keys of a map, each exactly once, in an order the model leaves
      open: the iteration order of a `HashMap` is not specified. */
  method KeysInSomeOrder<V>(m: map<string, V>) returns (keys: seq<string>)
    ensures forall k :: k in keys <==> k in m
    ensures Distinct(keys)
    ensures |keys| == |m|
  {
    keys := [];
    var rest := m.Keys;
    while rest != {}
      invariant rest <= m.Keys
      invariant forall k :: k in keys <==> k in m && k !in rest
      invariant Distinct(keys)
      decreases rest
    {
      var k :| k in rest;
      keys := keys + [k];
      rest := rest - {k};
    }
    DistinctCount(keys, m.Keys);
  }
}
