/** How a follower's log moves when a leader's entries arrive: the log operations of a
    node, related to the leader's log. */
module LogRefinement {
  import opened Types
  import opened LogView
  import opened NodeSpec
  import opened ProtocolLogs
  import opened ProtocolReplication

  function Whole(l: Log): View {
    View(0, 0, l)
  }

  lemma TermsMatch(l: Log, i: nat)
    ensures TermOf(Whole(l), i) == TermAt(l, i)
  {
  }

  /** The scan ends at position k: every entry before it is in the log, and k itself is
      not, unless k is the end. */
  ghost predicate ScanEnds(v: View, ents: seq<Entry>, k: nat) {
    && k <= |ents|
    && (forall j | 0 <= j < k :: TermOf(v, ents[j].index) == ents[j].term)
    && (k < |ents| ==> TermOf(v, ents[k].index) != ents[k].term)
  }

  lemma {:induction false} FindConflictIs(v: View, before: nat, ents: seq<Entry>) returns (k: nat)
    requires Follow(before, ents)
    ensures ScanEnds(v, ents, k)
    ensures FindConflict(v, ents) == if k == |ents| then 0 else before + 1 + k
    decreases |ents|
  {
    if ents == [] || !MatchTerm(v, ents[0].index, ents[0].term) {
      k := 0;
    } else {
      var rest := ents[1..];
      var j := FindConflictIs(v, before + 1, rest);
      k := j + 1;
      assert forall i | 1 <= i < |ents| :: ents[i] == rest[i - 1];
    }
  }

  /** The term check on the entry before the new ones makes the logs equal up to it. */
  lemma PreviousMatches(logs: Logs, t: nat, l: Log, leaderLog: Log, index: nat)
    requires LogOK(logs, l, t) && LogOK(logs, leaderLog, t) && index <= |leaderLog|
    requires TermAt(l, index) == TermAt(leaderLog, index)
    ensures Agree(l, leaderLog, index)
  {
    if index > 0 {
      assert EntryOK(logs, leaderLog, t, index - 1);
      Matching(logs, l, t, leaderLog, t, index - 1);
    }
  }

  /** Entries copied from the leader's log. */
  ghost predicate Copied(leaderLog: Log, index: nat, ents: seq<Entry>) {
    index + |ents| <= |leaderLog| && ents == leaderLog[index..index + |ents|]
  }

  lemma CopiedFollow(logs: Logs, t: nat, leaderLog: Log, index: nat, ents: seq<Entry>)
    requires LogOK(logs, leaderLog, t) && Copied(leaderLog, index, ents)
    ensures Follow(index, ents)
  {
    forall k | 0 <= k < |ents| ensures ents[k].index == index + 1 + k {
      assert EntryOK(logs, leaderLog, t, index + k);
    }
  }

  /** As far as the scan gets, the log is the leader's. */
  lemma ScannedAgree(logs: Logs, t: nat, l: Log, leaderLog: Log, index: nat, ents: seq<Entry>, k: nat)
    requires LogOK(logs, l, t) && LogOK(logs, leaderLog, t) && Copied(leaderLog, index, ents)
    requires Agree(l, leaderLog, index) && Follow(index, ents) && ScanEnds(Whole(l), ents, k)
    ensures Agree(l, leaderLog, index + k)
  {
    if k > 0 {
      assert ents[k - 1] == leaderLog[index + k - 1];
      assert EntryOK(logs, leaderLog, t, index + k - 1);
      TermsMatch(l, index + k);
      Matching(logs, l, t, leaderLog, t, index + k - 1);
    }
  }

  /** Rewriting from the conflict on leaves a prefix of the leader's log. */
  lemma Rewritten(l: Log, leaderLog: Log, index: nat, ents: seq<Entry>, k: nat)
    requires Copied(leaderLog, index, ents) && k < |ents|
    requires Agree(l, leaderLog, index + k)
    requires index + k < |l| ==> l[index + k] != leaderLog[index + k]
    ensures l[..index + k] + ents[k..] == leaderLog[..index + |ents|]
    ensures TakesOver(leaderLog, l, leaderLog[..index + |ents|])
  {
    var l' := leaderLog[..index + |ents|];
    assert ents[k..] == leaderLog[index + k..index + |ents|];
    forall j | 0 <= j <= |l|
      ensures Agree(l, l', j) || exists i :: 0 <= i < j && i < |leaderLog| && leaderLog[i] != l[i]
    {
      if j <= index + k {
        AgreeLess(l, leaderLog, index + k, j);
        assert l'[..j] == leaderLog[..j];
      } else {
        assert leaderLog[index + k] != l[index + k];
      }
    }
  }

  /** What a follower's log becomes. */
  ghost predicate TakenOver(logs: Logs, t: nat, l: Log, l': Log, leaderLog: Log, n: nat) {
    && LogOK(logs, l', t)
    && Agree(l', leaderLog, n)
    && TakesOver(leaderLog, l, l')
  }

  lemma KeptIsTakenOver(logs: Logs, t: nat, l: Log, leaderLog: Log, n: nat)
    requires LogOK(logs, l, t) && Agree(l, leaderLog, n)
    ensures TakenOver(logs, t, l, l, leaderLog, n) && n <= |l|
  {
  }

  lemma RewrittenIsTakenOver(logs: Logs, t: nat, l: Log, leaderLog: Log, committed: nat, c: nat,
                             index: nat, ents: seq<Entry>, k: nat)
    requires LogOK(logs, leaderLog, t) && Copied(leaderLog, index, ents) && k < |ents|
    requires Follow(index, ents) && Agree(l, leaderLog, index + k) && committed <= index + k
    requires index + k < |l| ==> l[index + k] != leaderLog[index + k]
    ensures var l' := leaderLog[..index + |ents|];
            && Append(Whole(l), committed, ents[k..]) == Appended(Whole(l'), committed)
            && TakenOver(logs, t, l, l', leaderLog, index + |ents|)
  {
    Rewritten(l, leaderLog, index, ents, k);
    LogOKPrefix(logs, leaderLog, t, index + |ents|);
    assert ents[k..][0] == ents[k];
  }

  /** A follower whose committed prefix is the leader's never panics on the leader's
      entries, and if it takes them ends up with the leader's log as far as they reach. */
  lemma MaybeAppendTakesOver(logs: Logs, t: nat, l: Log, leaderLog: Log, committed: nat,
                             index: nat, logTerm: nat, c: nat, ents: seq<Entry>)
    requires LogOK(logs, l, t) && LogOK(logs, leaderLog, t) && Copied(leaderLog, index, ents)
    requires logTerm == TermAt(leaderLog, index)
    requires committed <= |l| && Agree(l, leaderLog, committed)
    ensures var o := MaybeAppend(Whole(l), committed, index, logTerm, c, ents);
            && !o.LogPanic?
            && (o.Appended? ==>
                  && o.view == Whole(o.view.ents)
                  && TakenOver(logs, t, l, o.view.ents, leaderLog, index + |ents|)
                  && o.committed == Max(committed, Min(c, index + |ents|)))
  {
    hide LogOK, TakenOver, Agree, MaybeAppend, Copied, Follow;
    MaybeAppendIfMatching(Whole(l), committed, index, logTerm, c, ents);
    if MatchTerm(Whole(l), index, logTerm) {
      TermsMatch(l, index);
      CopiedWithin(leaderLog, index, ents);
      PreviousMatches(logs, t, l, leaderLog, index);
      CopiedFollow(logs, t, leaderLog, index, ents);
      var k := FindConflictIs(Whole(l), index, ents);
      ScannedAgree(logs, t, l, leaderLog, index, ents, k);
      MaybeAppendScan(Whole(l), committed, index, logTerm, c, ents, k);
      if k == |ents| {
        KeptIsTakenOver(logs, t, l, leaderLog, index + |ents|);
      } else {
        ConflictPast(l, leaderLog, committed, index, ents, k);
        RewrittenIsTakenOver(logs, t, l, leaderLog, committed, c, index, ents, k);
      }
    }
  }

  lemma CopiedWithin(leaderLog: Log, index: nat, ents: seq<Entry>)
    requires Copied(leaderLog, index, ents)
    ensures index + |ents| <= |leaderLog|
  {
  }

  lemma MaybeAppendIfMatching(v: View, committed: nat, index: nat, logTerm: nat, c: nat, ents: seq<Entry>)
    ensures !MatchTerm(v, index, logTerm) ==> MaybeAppend(v, committed, index, logTerm, c, ents) == Rejected
  {
  }

  /** What is done after a scan that stopped at entry k. */
  lemma MaybeAppendScan(v: View, committed: nat, index: nat, logTerm: nat, c: nat, ents: seq<Entry>, k: nat)
    requires MatchTerm(v, index, logTerm) && k <= |ents|
    requires FindConflict(v, ents) == if k == |ents| then 0 else index + 1 + k
    ensures var upTo := Min(c, index + |ents|);
            MaybeAppend(v, committed, index, logTerm, c, ents) ==
            if k == |ents| then CommitTo(v, committed, upTo)
            else if index + 1 + k <= committed then LogPanic
            else match Append(v, committed, ents[k..])
                 case Appended(view', committed') => CommitTo(view', committed', upTo)
                 case _ => LogPanic
  {
    hide Append, CommitTo, FindConflict;
  }

  lemma ConflictPast(l: Log, leaderLog: Log, committed: nat, index: nat, ents: seq<Entry>, k: nat)
    requires Copied(leaderLog, index, ents) && Follow(index, ents) && k < |ents|
    requires ScanEnds(Whole(l), ents, k) && committed <= |l| && Agree(l, leaderLog, committed)
    ensures committed <= index + k
    ensures index + k < |l| ==> l[index + k] != leaderLog[index + k]
  {
    assert ents[k] == leaderLog[index + k];
    TermsMatch(l, index + k + 1);
    if committed > index + k {
      AgreePoint(l, leaderLog, committed, index + k);
    }
  }
}
