/** What merging stakes and creating a canonical stake do to the record list. */
module Reshaping {
  import opened Base
  import opened Model
  import opened Instructions
  import opened Soundness
  import L = LedgerOps

  lemma SwapRemoveMultiset<T>(s: seq<T>, i: nat)
    requires i < |s|
    ensures multiset(SwapRemove(s, i)) == multiset(s) - multiset{s[i]}
  {
    var n := |s| - 1;
    var t := s[i := s[n]];
    SetMultiset(s, i, s[n]);
    assert t == t[..n] + [s[n]];
    assert multiset(t) == multiset(t[..n]) + multiset{s[n]};
    var rest := multiset(s) - multiset{s[i]};
    assert multiset(t[..n]) + multiset{s[n]} == rest + multiset{s[n]};
    forall y ensures multiset(t[..n])[y] == rest[y] {
      assert (multiset(t[..n]) + multiset{s[n]})[y] == (rest + multiset{s[n]})[y];
    }
    assert multiset(t[..n]) == rest;
  }

  lemma SetMultiset<T>(s: seq<T>, i: nat, x: T)
    requires i < |s|
    ensures multiset(s[i := x]) == multiset(s) - multiset{s[i]} + multiset{x}
  {
  }

  /** merge_stakes: the records are those of before, the pair replaced by the merged record, in
      whatever order the swap-remove leaves them. */
  lemma MergeReplacesPair(w: World, dst: nat, dstAccount: Key, src: nat, srcAccount: Key, j: nat, merged: nat, w': World)
    requires MergeStakes(w, dst, dstAccount, src, srcAccount, j, merged) == Some(w')
    ensures dst < |w.state.ledger.stakes| && src < |w.state.ledger.stakes| && dst != src
    ensures var s := w.state.ledger.stakes;
            multiset(w'.state.ledger.stakes)
            == multiset(s) - multiset{s[dst]} - multiset{s[src]} + multiset{s[dst].(lamports := merged)}
    ensures merged >= w.state.ledger.stakes[dst].lamports + w.state.ledger.stakes[src].lamports
    ensures w'.state.ledger.totalActive - w.state.ledger.totalActive
            == merged - w.state.ledger.stakes[dst].lamports - w.state.ledger.stakes[src].lamports
  {
    MergeShape(w, dst, dstAccount, src, srcAccount, j, merged, w');
    var s := w.state.ledger.stakes;
    var joined := s[dst := s[dst].(lamports := merged)];
    SetMultiset(s, dst, s[dst].(lamports := merged));
    SwapRemoveMultiset(joined, src);
    PairOut(s, dst, src, s[dst].(lamports := merged));
  }

  lemma MergeShape(w: World, dst: nat, dstAccount: Key, src: nat, srcAccount: Key, j: nat, merged: nat, w': World)
    requires MergeStakes(w, dst, dstAccount, src, srcAccount, j, merged) == Some(w')
    ensures dst < |w.state.ledger.stakes| && src < |w.state.ledger.stakes| && dst != src
    ensures var s := w.state.ledger.stakes;
            && w'.state.ledger.stakes == SwapRemove(s[dst := s[dst].(lamports := merged)], src)
            && merged >= s[dst].lamports + s[src].lamports
            && w'.state.ledger.totalActive - w.state.ledger.totalActive == merged - s[dst].lamports - s[src].lamports
  {
  }

  lemma PairOut<T>(s: seq<T>, dst: nat, src: nat, x: T)
    requires dst < |s| && src < |s| && dst != src
    ensures multiset(s) - multiset{s[dst]} + multiset{x} - multiset{s[src]}
            == multiset(s) - multiset{s[dst]} - multiset{s[src]} + multiset{x}
  {
    var rest := multiset(s) - multiset{s[dst]};
    SwapRemoveMultiset(s, dst);
    var others := SwapRemove(s, dst);
    assert s[src] in others by {
      assert others[if src == |s| - 1 then dst else src] == s[src];
    }
    assert s[src] in multiset(others);
  }

  /** create_canonical_stake: pushed and swap-removed, the record keeps its place in the list and only
      its account changes hands; the totals stay. */
  lemma CanonicalReplacesInPlace(w: World, i: nat, account: Key, j: nat, w': World)
    requires CreateCanonicalStake(w, i, account, j) == Some(w')
    ensures i < |w.state.ledger.stakes| && j < |w.state.ledger.validators|
    ensures var l := w.state.ledger;
            var canonical := CanonicalStake(l.validators[j].vote);
            w'.state.ledger == l.(stakes := l.stakes[i := StakeRecord(canonical, l.stakes[i].lamports,
                                                                     w.chain.clock.epoch, false, Active)])
  {
    var l := w.state.ledger;
    var canonical := CanonicalStake(l.validators[j].vote);
    PushSwapRemove(l.stakes, StakeRecord(canonical, l.stakes[i].lamports, w.chain.clock.epoch, false, Active), i);
  }
}
