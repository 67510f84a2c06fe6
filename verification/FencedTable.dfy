/**
 The downstream side of fencing: a table that rejects tokens older than the
 newest it accepted, and the summary of its history. Combined with the state
 machine's tokens, every leadership term in that history has one writer.
 */
module FencedTable {
  import opened Fsm
  import opened FsmLog

  datatype Write = Write(writer: string, token: nat)

  /** One line of the summary: the writes of one token. */
  datatype Term = Term(token: nat, writes: nat, writer: string)

  ghost predicate NonDecreasing(history: seq<Write>) {
    forall i, j :: 0 <= i < j < |history| ==> history[i].token <= history[j].token
  }

  class ControllerTable {
    var token: nat
    var writer: string
    var accepted: seq<Write>
    var rejected: nat

    /** Accepted tokens never decrease, and the table's token is the last of them. */
    ghost predicate Valid()
      reads this
    {
      && NonDecreasing(accepted)
      && (accepted == [] ==> token == 0)
      && (accepted != [] ==> accepted[|accepted| - 1] == Write(writer, token))
    }

    constructor ()
      ensures Valid() && accepted == [] && rejected == 0 && token == 0
    {
      token, writer, accepted, rejected := 0, "", [], 0;
    }

    /** Accepts the write unless its token is older than one accepted before. */
    method Accept(replica: string, presented: nat) returns (ok: bool)
      requires Valid()
      modifies this
      ensures Valid()
      ensures ok <==> forall i :: 0 <= i < |old(accepted)| ==> old(accepted)[i].token <= presented
      ensures ok <==> old(token) <= presented
      ensures token == if ok then presented else old(token)
      ensures accepted == if ok then old(accepted) + [Write(replica, presented)] else old(accepted)
      ensures rejected == if ok then old(rejected) else old(rejected) + 1
    {
      if presented < token {
        rejected := rejected + 1;
        return false;
      }
      token, writer := presented, replica;
      accepted := accepted + [Write(replica, presented)];
      ok := true;
    }

    /** The history as leadership terms, in order. */
    method Summarize() returns (terms: seq<Term>)
      requires Valid()
      ensures Summary(accepted, terms)
    {
      terms := [];
      var i := 0;
      while i < |accepted|
        invariant 0 <= i <= |accepted|
        invariant Summary(accepted[..i], terms)
        invariant i < |accepted| && terms != [] ==> terms[|terms| - 1].token < accepted[i].token
      {
        var j := i;
        while j < |accepted| && accepted[j].token == accepted[i].token
          invariant i <= j <= |accepted|
          invariant forall k :: i <= k < j ==> accepted[k].token == accepted[i].token
        {
          j := j + 1;
        }
        var term := Term(accepted[i].token, j - i, accepted[i].writer);
        AddTerm(accepted, i, j, terms, term);
        terms := terms + [term];
        i := j;
      }
      assert accepted[..|accepted|] == accepted;
    }
  }

  /** No write before the `k`-th has a newer token. */
  ghost predicate Newest(presented: seq<Write>, k: nat)
    requires k < |presented|
  {
    forall i :: 0 <= i < k ==> presented[i].token <= presented[k].token
  }

  /** `accepted` are the writes at `places`, in order: those no earlier one had a newer token than. */
  ghost predicate Kept(presented: seq<Write>, places: seq<nat>, accepted: seq<Write>) {
    && |places| == |accepted|
    && (forall i :: 0 <= i < |places| ==> places[i] < |presented| && accepted[i] == presented[places[i]])
    && (forall i, j :: 0 <= i < j < |places| ==> places[i] < places[j])
    && (forall k :: 0 <= k < |presented| ==> (k in places <==> Newest(presented, k)))
  }

  /** No write so far has a token above `token`. */
  ghost predicate NoneAbove(presented: seq<Write>, token: nat) {
    forall i :: 0 <= i < |presented| ==> presented[i].token <= token
  }

  lemma NewestKept(presented: seq<Write>, k: nat, i: nat)
    requires i < k < |presented|
    ensures Newest(presented[..k], i) == Newest(presented[..k + 1], i)
  {
    assert forall n :: 0 <= n <= i ==> presented[..k][n] == presented[..k + 1][n];
  }

  lemma KeepAccepted(presented: seq<Write>, k: nat, places: seq<nat>, accepted: seq<Write>)
    requires k < |presented| && Kept(presented[..k], places, accepted) && NoneAbove(presented[..k], presented[k].token)
    ensures Kept(presented[..k + 1], places + [k], accepted + [presented[k]])
    ensures NoneAbove(presented[..k + 1], presented[k].token)
  {
    hide Newest;
    var before, after := presented[..k], presented[..k + 1];
    assert forall i :: 0 <= i < k ==> before[i] == after[i];
    assert forall i :: i in places + [k] <==> i in places || i == k;
    forall i | 0 <= i <= k ensures i in places + [k] <==> Newest(after, i) {
      if i < k {
        NewestKept(presented, k, i);
      } else {
        NewestMeans(presented, k);
      }
    }
  }

  lemma NewestMeans(presented: seq<Write>, k: nat)
    requires k < |presented|
    ensures Newest(presented[..k + 1], k) <==> NoneAbove(presented[..k], presented[k].token)
  {
    assert forall i :: 0 <= i < k ==> presented[..k][i] == presented[..k + 1][i];
  }

  lemma KeepRejected(presented: seq<Write>, k: nat, places: seq<nat>, accepted: seq<Write>, token: nat)
    requires k < |presented| && Kept(presented[..k], places, accepted) && NoneAbove(presented[..k], token)
    requires presented[k].token < token && accepted != [] && accepted[|accepted| - 1].token == token
    ensures Kept(presented[..k + 1], places, accepted) && NoneAbove(presented[..k + 1], token)
  {
    hide Newest;
    var before, after := presented[..k], presented[..k + 1];
    assert forall i :: 0 <= i < k ==> before[i] == after[i];
    assert before[places[|places| - 1]].token == token;
    NewestMeans(presented, k);
    forall i | 0 <= i < k ensures i in places <==> Newest(after, i) {
      NewestKept(presented, k, i);
    }
  }

  lemma AboveAll(presented: seq<Write>, token: nat, newer: nat)
    requires NoneAbove(presented, token) && token <= newer
    ensures NoneAbove(presented, newer)
  {
  }

  /**
   Writes presented one after the other to an empty table: the accepted ones are,
   in order, exactly those no earlier write had a newer token than. `places` says
   where each was presented; all others are counted as rejected.
   */
  method Present(presented: seq<Write>) returns (table: ControllerTable, places: seq<nat>)
    ensures fresh(table) && table.Valid()
    ensures Kept(presented, places, table.accepted)
    ensures |places| + table.rejected == |presented|
  {
    hide Kept, NoneAbove, NonDecreasing;
    table := new ControllerTable();
    places := [];
    NothingKept(presented);
    for k := 0 to |presented|
      invariant fresh(table) && table.Valid()
      invariant |places| == |table.accepted| && |places| + table.rejected == k
      invariant Kept(presented[..k], places, table.accepted) && NoneAbove(presented[..k], table.token)
    {
      if presented[k].token < table.token {
        KeepRejected(presented, k, places, table.accepted, table.token);
      } else {
        AboveAll(presented[..k], table.token, presented[k].token);
        KeepAccepted(presented, k, places, table.accepted);
      }
      var ok := table.Accept(presented[k].writer, presented[k].token);
      if ok {
        places := places + [k];
      }
    }
    assert presented[..|presented|] == presented;
  }

  lemma NothingKept(presented: seq<Write>)
    ensures Kept(presented[..0], [], []) && NoneAbove(presented[..0], 0)
  {
  }

  function Total(terms: seq<Term>): nat {
    if terms == [] then 0 else Total(terms[..|terms| - 1]) + terms[|terms| - 1].writes
  }

  /** Where the `k`-th term starts in the history. */
  function StartOf(terms: seq<Term>, k: nat): nat
    requires k <= |terms|
  {
    Total(terms[..k])
  }

  /**
   `terms` cuts the whole history into consecutive runs, one per token, with
   strictly increasing tokens; each names the writer of its first write.
   */
  ghost predicate Summary(history: seq<Write>, terms: seq<Term>) {
    && Total(terms) == |history|
    && (forall k, l :: 0 <= k < l < |terms| ==> terms[k].token < terms[l].token)
    && (forall k :: 0 <= k < |terms| ==> TermOk(history, terms, k))
  }

  ghost predicate TermOk(history: seq<Write>, terms: seq<Term>, k: nat)
    requires k < |terms|
  {
    var start := StartOf(terms, k);
    && 0 < terms[k].writes && start + terms[k].writes <= |history|
    && history[start].writer == terms[k].writer
    && (forall i :: start <= i < start + terms[k].writes ==> history[i].token == terms[k].token)
  }

  lemma AddTerm(history: seq<Write>, i: nat, j: nat, terms: seq<Term>, term: Term)
    requires i < j <= |history| && Summary(history[..i], terms)
    requires terms != [] ==> terms[|terms| - 1].token < history[i].token
    requires forall k :: i <= k < j ==> history[k].token == history[i].token
    requires term == Term(history[i].token, j - i, history[i].writer)
    ensures Summary(history[..j], terms + [term])
  {
    var longer := terms + [term];
    assert longer[..|terms|] == terms;
    forall k | 0 <= k < |longer| ensures TermOk(history[..j], longer, k) {
      assert longer[..k] == terms[..k];
      if k < |terms| {
        assert TermOk(history[..i], terms, k);
      } else {
        assert terms[..k] == terms;
      }
    }
  }

  // -------------------------------------------------- with the service's tokens

  /** The writer was granted the token by some command of the log. */
  ghost predicate Granted(log: seq<Command>, w: Write) {
    exists i :: 0 <= i < |log| && log[i].AcquireLock? && log[i].ownerID == w.writer
                && Answer(log, i).LockAcquired? && Answer(log, i).fencingToken == w.token
  }

  /**
   If writers present only tokens the service granted them, in any order and with
   any delay, then every term of the summary has exactly one writer.
   */
  lemma OneWriterPerTerm(log: seq<Command>, history: seq<Write>, terms: seq<Term>, k: nat, i: nat)
    requires forall n :: 0 <= n < |history| ==> Granted(log, history[n])
    requires Summary(history, terms) && k < |terms|
    requires StartOf(terms, k) <= i < StartOf(terms, k) + terms[k].writes
    ensures i < |history| && history[i] == Write(terms[k].writer, terms[k].token)
  {
    var start := StartOf(terms, k);
    assert TermOk(history, terms, k);
    assert Granted(log, history[start]) && Granted(log, history[i]);
    SameWriter(log, history[start], history[i]);
  }

  lemma SameWriter(log: seq<Command>, v: Write, w: Write)
    requires Granted(log, v) && Granted(log, w) && v.token == w.token
    ensures v.writer == w.writer
  {
    var i :| 0 <= i < |log| && log[i].AcquireLock? && log[i].ownerID == v.writer
             && Answer(log, i).LockAcquired? && Answer(log, i).fencingToken == v.token;
    var j :| 0 <= j < |log| && log[j].AcquireLock? && log[j].ownerID == w.writer
             && Answer(log, j).LockAcquired? && Answer(log, j).fencingToken == w.token;
    TokensNeverShared(log, i, j);
  }
}
