/** Facts about families of logs indexed by term. `logs[t]` is the log that the leader of
    term t has built; it only ever grows at its end. Every log in the cluster is made of
    pieces of these logs, and everything below is about that one relation. */
module ProtocolLogs {
  import opened Types

  type Log = seq<Entry>
  type Logs = map<nat, Log>

  /** The two logs are both at least k long and hold the same first k entries. */
  ghost predicate Agree(a: Log, b: Log, k: nat) {
    k <= |a| && k <= |b| && a[..k] == b[..k]
  }

  function TermAt(l: Log, i: nat): nat {
    if 1 <= i <= |l| then l[i - 1].term else 0
  }

  function LastTerm(l: Log): nat {
    TermAt(l, |l|)
  }

  /** Log c is at least as up to date as log v. */
  predicate UpToDate(c: Log, v: Log) {
    LastTerm(c) > LastTerm(v) || (LastTerm(c) == LastTerm(v) && |c| >= |v|)
  }

  /** Position k of l carries its own index, and l up to k is what the leader of that
      entry's term had. */
  ghost predicate EntryOK(logs: Logs, l: Log, bound: nat, k: nat)
    requires k < |l|
  {
    && l[k].index == k + 1
    && 1 <= l[k].term <= bound
    && l[k].term in logs
    && Agree(l, logs[l[k].term], k + 1)
  }

  ghost predicate LogOK(logs: Logs, l: Log, bound: nat) {
    forall k {:trigger EntryOK(logs, l, bound, k)} | 0 <= k < |l| :: EntryOK(logs, l, bound, k)
  }

  /** Some entry below i of logs[t2] differs from logs[t]. */
  ghost predicate Conflict(logs: Logs, t2: nat, t: nat, i: nat) {
    && t2 in logs
    && t in logs
    && exists k :: 0 <= k < i && k < |logs[t2]| && k < |logs[t]| && logs[t2][k] != logs[t][k]
  }

  /** Log l holds the first i entries of logs[t], unless a leader of a later term, up to
      `bound`, disagreed with them. */
  ghost predicate Holds(logs: Logs, l: Log, t: nat, i: nat, bound: nat) {
    t in logs && (Agree(l, logs[t], i) || exists t2 :: t < t2 <= bound && Conflict(logs, t2, t, i))
  }

  ghost predicate HoldsAll(logs: Logs, l: Log, t: nat, n: nat, bound: nat) {
    forall i | 0 <= i <= n :: Holds(logs, l, t, i, bound)
  }

  ghost predicate Grown(logs: Logs, logs': Logs) {
    forall t | t in logs :: t in logs' && logs[t] <= logs'[t]
  }

  lemma AgreeLess(a: Log, b: Log, k: nat, j: nat)
    requires Agree(a, b, k) && j <= k
    ensures Agree(a, b, j)
  {
    assert a[..j] == a[..k][..j] && b[..j] == b[..k][..j];
  }

  lemma AgreeTrans(a: Log, b: Log, c: Log, k: nat)
    requires Agree(a, b, k) && Agree(b, c, k)
    ensures Agree(a, c, k)
  {
  }

  lemma AgreeGrown(a: Log, b: Log, b': Log, k: nat)
    requires Agree(a, b, k) && b <= b'
    ensures Agree(a, b', k)
  {
    assert b[..k] == b'[..k];
  }

  lemma AgreePoint(a: Log, b: Log, k: nat, j: nat)
    requires Agree(a, b, k) && j < k
    ensures a[j] == b[j]
  {
    assert a[..k][j] == b[..k][j];
  }

  lemma LogOKGrown(logs: Logs, logs': Logs, l: Log, bound: nat, bound': nat)
    requires LogOK(logs, l, bound) && Grown(logs, logs') && bound <= bound'
    ensures LogOK(logs', l, bound')
  {
    forall k | 0 <= k < |l| ensures EntryOK(logs', l, bound', k) {
      assert EntryOK(logs, l, bound, k);
      AgreeGrown(l, logs[l[k].term], logs'[l[k].term], k + 1);
    }
  }

  lemma LogOKPrefix(logs: Logs, l: Log, bound: nat, n: nat)
    requires LogOK(logs, l, bound) && n <= |l|
    ensures LogOK(logs, l[..n], bound)
  {
    forall k | 0 <= k < n ensures EntryOK(logs, l[..n], bound, k) {
      assert EntryOK(logs, l, bound, k);
      assert l[..n][..k + 1] == l[..k + 1];
    }
  }

  /** Two logs with the same term at a position are the same up to it. */
  lemma Matching(logs: Logs, a: Log, aBound: nat, b: Log, bBound: nat, k: nat)
    requires LogOK(logs, a, aBound) && LogOK(logs, b, bBound)
    requires k < |a| && k < |b| && a[k].term == b[k].term
    ensures Agree(a, b, k + 1)
  {
    assert EntryOK(logs, a, aBound, k) && EntryOK(logs, b, bBound, k);
  }

  /** Terms never go down along a log. */
  lemma TermsRise(logs: Logs, l: Log, bound: nat, j: nat, k: nat)
    requires LogOK(logs, l, bound)
    requires forall t | t in logs :: LogOK(logs, logs[t], t)
    requires j <= k < |l|
    ensures l[j].term <= l[k].term
  {
    assert EntryOK(logs, l, bound, k);
    var t := l[k].term;
    assert EntryOK(logs, logs[t], t, j);
    AgreePoint(l, logs[t], k + 1, j);
  }

  lemma ConflictGrown(logs: Logs, logs': Logs, t2: nat, t: nat, i: nat)
    requires Conflict(logs, t2, t, i) && Grown(logs, logs')
    ensures Conflict(logs', t2, t, i)
  {
    var k :| 0 <= k < i && k < |logs[t2]| && k < |logs[t]| && logs[t2][k] != logs[t][k];
    assert logs'[t2][k] == logs[t2][k] && logs'[t][k] == logs[t][k];
  }

  lemma HoldsGrown(logs: Logs, logs': Logs, l: Log, t: nat, i: nat, bound: nat, bound': nat)
    requires Holds(logs, l, t, i, bound) && Grown(logs, logs') && bound <= bound'
    ensures Holds(logs', l, t, i, bound')
  {
    if Agree(l, logs[t], i) {
      AgreeGrown(l, logs[t], logs'[t], i);
    } else {
      var t2 :| t < t2 <= bound && Conflict(logs, t2, t, i);
      ConflictGrown(logs, logs', t2, t, i);
    }
  }

  lemma HoldsAllGrown(logs: Logs, logs': Logs, l: Log, t: nat, n: nat, bound: nat, bound': nat)
    requires HoldsAll(logs, l, t, n, bound) && Grown(logs, logs') && bound <= bound'
    ensures HoldsAll(logs', l, t, n, bound')
  {
    forall i | 0 <= i <= n ensures Holds(logs', l, t, i, bound') {
      HoldsGrown(logs, logs', l, t, i, bound, bound');
    }
  }

  /** Holding survives any change of l that keeps its first i entries. */
  lemma HoldsKept(logs: Logs, l: Log, l': Log, t: nat, i: nat, bound: nat)
    requires Holds(logs, l, t, i, bound) && Agree(l, l', Types.Min(i, |l|))
    ensures Holds(logs, l', t, i, bound)
  {
    if Agree(l, logs[t], i) {
      AgreeTrans(l', l, logs[t], i);
    }
  }

  lemma ConflictNotAgree(logs: Logs, t2: nat, t: nat, i: nat)
    requires Conflict(logs, t2, t, i)
    ensures !Agree(logs[t2], logs[t], i)
  {
    var k :| 0 <= k < i && k < |logs[t2]| && k < |logs[t]| && logs[t2][k] != logs[t][k];
    if Agree(logs[t2], logs[t], i) {
      AgreePoint(logs[t2], logs[t], i, k);
    }
  }

  /** A log at least as up to date as one holding an entry of term t ends in a term of t or later. */
  lemma LastTermReaches(logs: Logs, c: Log, cBound: nat, w: Log, wBound: nat, t: nat, i: nat)
    requires LogOK(logs, c, cBound) && LogOK(logs, w, wBound)
    requires forall u | u in logs :: LogOK(logs, logs[u], u)
    requires t in logs && 1 <= i <= |logs[t]| && logs[t][i - 1].term == t
    requires Agree(w, logs[t], i) && UpToDate(c, w)
    ensures |c| > 0 && LastTerm(c) >= t && LastTerm(c) <= cBound
    ensures LastTerm(c) in logs && Agree(c, logs[LastTerm(c)], |c|)
    ensures LastTerm(c) == t ==> |c| >= i
  {
    assert EntryOK(logs, logs[t], t, i - 1);
    AgreePoint(w, logs[t], i, i - 1);
    TermsRise(logs, w, wBound, i - 1, |w| - 1);
    assert EntryOK(logs, c, cBound, |c| - 1);
  }

  /** A log whose last entry is of a term after t reaches past every entry of term t that
      the later leader shares. */
  lemma LaterLogCovers(logs: Logs, c: Log, bound: nat, t: nat, i: nat)
    requires LogOK(logs, c, bound) && |c| > 0
    requires t in logs && LogOK(logs, logs[t], t)
    requires t < LastTerm(c) && LastTerm(c) in logs && Agree(logs[t], logs[LastTerm(c)], i)
    ensures Agree(c, logs[t], i)
  {
    var t1 := LastTerm(c);
    assert EntryOK(logs, c, bound, |c| - 1);
    if |c| < i {
      assert EntryOK(logs, logs[t], t, |c| - 1);
      AgreePoint(logs[t], logs[t1], i, |c| - 1);
      AgreePoint(c, logs[t1], |c|, |c| - 1);
    }
    AgreeLess(c, logs[t1], |c|, i);
  }
}
