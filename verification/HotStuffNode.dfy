/**
 The HotStuff replica as the object it is in the source: consensusBase and
 Synchronizer fields (and the block store they share) changed in place. Each
 method is proved to do what the function of the same name does on values, so
 everything proved about the functions holds of the object.
 */
module HotStuffNodes {
  import opened HotStuffBlocks
  import R = HotStuffReplicas
  import S = HotStuffSafety
  import V = HotStuffViews

  /** One of the QCs with the largest view, or the empty certificate if there are none. */
  ghost predicate Largest(qcs: map<ID, QuorumCert>, high: QuorumCert) {
    && (forall id :: id in qcs ==> qcs[id].view <= high.view)
    && (if qcs == map[] then high == ZERO_QC else exists id :: id in qcs && qcs[id] == high)
  }

  /** The QC met at step i of the walk is above all those met before it that are not empty. */
  ghost predicate MetFirst(qcs: map<ID, QuorumCert>, ids: seq<ID>, i: nat, high: QuorumCert) {
    && i < |ids| && ids[i] in qcs && qcs[ids[i]] == high
    && forall j :: 0 <= j < i && ids[j] in qcs ==> qcs[ids[j]].view < high.view || qcs[ids[j]] == ZERO_QC
  }

  /** The walk ends with a QC of the largest view it met, the first one of that view, or with the empty one if it met none. */
  lemma {:induction false} HighestOfVisited(qcs: map<ID, QuorumCert>, ids: seq<ID>)
    ensures var high := R.Highest(qcs, ids);
      && (forall i :: 0 <= i < |ids| && ids[i] in qcs ==> qcs[ids[i]].view <= high.view && (high == ZERO_QC ==> qcs[ids[i]] == ZERO_QC))
      && (if forall id :: id in ids ==> id !in qcs then high == ZERO_QC else exists i :: MetFirst(qcs, ids, i, high))
  {
    if ids != [] {
      var n := |ids| - 1;
      var last, before, high := ids[n], ids[..n], R.Highest(qcs, ids);
      HighestOfVisited(qcs, before);
      if last in qcs && high == qcs[last] && R.Highest(qcs, before) != high {
        assert MetFirst(qcs, ids, n, high);
      } else if exists id :: id in before && id in qcs {
        var i :| MetFirst(qcs, before, i, R.Highest(qcs, before));
        assert MetFirst(qcs, ids, i, high);
      } else if last in qcs {
        assert MetFirst(qcs, ids, n, high);
      }
    }
  }

  /** Whatever the order of the walk, it ends with a QC of the largest view. */
  lemma HighestIsLargest(qcs: map<ID, QuorumCert>, ids: seq<ID>)
    requires forall id :: id in qcs <==> id in ids
    ensures Largest(qcs, R.Highest(qcs, ids))
  {
    HighestOfVisited(qcs, ids);
    if qcs != map[] {
      var id :| id in qcs;
      assert id in ids;
    } else if ids != [] {
      assert ids[0] in ids;
    }
  }

  /**
   What VerifyAggregateQC answers is a QC of the largest view in the aggregate; its block is
   certified; and a quorum of the configuration made the aggregate's signature, on timeouts
   of one view. With a scheme that accepts the batch, or without a cache, these are timeouts
   of the aggregate's view, each with the QC the aggregate holds for it.
   */
  lemma AggAnswerSound(log: set<S.Sig>, config: set<ID>, r: R.Replica, env: R.Env, a: AggregateQC)
    requires S.StoreOk(r.blocks) && S.BatchesOk(log, config, r.batched) && r.n == |config| && S.Sound(log, config, env)
    requires R.VerifyAgg(r, env, a).1.Some? && forall id :: id in a.qcs <==> id in env.order(a)
    ensures var high := R.VerifyAgg(r, env, a).1.value;
      Largest(a.qcs, high) && S.CertOk(log, config, high) && S.AggSigned(log, config, a)
    ensures R.Judged(env, a) || S.Uncached(env) ==> S.AggOwn(a)
  {
    S.VerifyAggSound(log, config, r, env, a);
    HighestIsLargest(a.qcs, env.order(a));
  }

  /** What CreateQuorumCert makes of the combined signature of the votes. */
  function CertFor(b: Block, combined: Option<Signature>): Option<QuorumCert> {
    if b == GENESIS then Some(QuorumCert(None, 0, HashOf(GENESIS)))
    else if combined.None? then None
    else Some(QuorumCert(combined, b.view, HashOf(b)))
  }

  /** Collects the votes' signatures and combines them; None is the error of a failed combination. */
  method CreateQuorumCert(b: Block, votes: seq<Signature>, combine: seq<Signature> -> Option<Signature>) returns (qc: Option<QuorumCert>)
    ensures qc == CertFor(b, combine(votes))
    ensures qc.Some? ==> V.Matches(qc.value) && qc.value.hash == HashOf(b)
  {
    if b == GENESIS {
      return Some(QuorumCert(None, 0, HashOf(GENESIS)));
    }
    var sigs: seq<Signature> := [];
    for i := 0 to |votes|
      invariant sigs == votes[..i]
    {
      sigs := sigs + [votes[i]];
    }
    assert votes[..|votes|] == votes;
    var sig := combine(sigs);
    qc := if sig.None? then None else Some(QuorumCert(sig, b.view, HashOf(b)));
  }

  /** A certificate of a quorum's good signatures is accepted wherever the block can be had, and carries its view. */
  lemma CreatedCertVerifies(r: R.Replica, env: R.Env, b: Block, sig: Signature)
    requires S.StoreOk(r.blocks) && R.Get(r, env, HashOf(b)).1.Some?
    requires |sig.Participants()| >= QuorumSize(r.n) && env.verify(sig, BlockMsg(b))
    ensures var qc := CertFor(b, Some(sig)); qc.Some? && V.Matches(qc.value) && R.VerifyQC(r, env, qc.value).1
  {
    S.GetKeepsStore(r, env, HashOf(b));
  }

  class Node {
    const id: ID
    const n: nat
    const useAgg: bool
    const chained: bool
    var lastVote: View
    var exec: Block
    var executed: seq<Block>
    var lock: Block
    var view: View
    ghost var entry: R.Entry
    var highQC: QuorumCert
    var highTC: TimeoutCert
    var lastTimeout: Option<View>
    var timeouts: map<View, map<ID, TimeoutMsg>>
    var blocks: map<Hash, Block>
    var batched: set<Signature>
    var history: seq<R.Act>
    var halted: bool

    ghost function State(): R.Replica
      reads this
    {
      R.Replica(id, n, useAgg, chained, lastVote, exec, executed, lock, view, entry, highQC, highTC, lastTimeout, timeouts,
        blocks, batched, history, halted)
    }

    constructor (id: ID, n: nat, useAgg: bool, chained: bool)
      ensures State() == R.InitialReplica(id, n, useAgg, chained)
    {
      this.id, this.n, this.useAgg, this.chained := id, n, useAgg, chained;
      lastVote, exec, executed, lock := 0, GENESIS, [], GENESIS;
      view, entry := 1, R.AtStart;
      highQC, highTC := QuorumCert(None, 0, HashOf(GENESIS)), TimeoutCert(None, 0);
      lastTimeout, timeouts := None, map[];
      blocks, batched, history, halted := map[HashOf(GENESIS) := GENESIS], {}, [], false;
    }

    method Get(env: R.Env, h: Hash) returns (b: Option<Block>)
      modifies `blocks
      ensures (State(), b) == R.Get(old(State()), env, h)
    {
      if h in blocks {
        return Some(blocks[h]);
      }
      b := env.fetch(h);
      if b.Some? && HashOf(b.value) == h {
        blocks := blocks[h := b.value];
      } else {
        b := None;
      }
    }

    method VerifyQuorumCert(env: R.Env, qc: QuorumCert) returns (ok: bool)
      modifies `blocks, `halted
      ensures (State(), ok) == R.VerifyQC(old(State()), env, qc)
    {
      if qc.hash == HashOf(GENESIS) {
        return true;
      }
      if qc.sig.None? {
        halted := true;
        return false;
      }
      if |qc.sig.value.Participants()| < QuorumSize(n) {
        return false;
      }
      var b := Get(env, qc.hash);
      return b.Some? && env.verify(qc.sig.value, BlockMsg(b.value));
    }

    method VerifyTimeoutCert(env: R.Env, tc: TimeoutCert) returns (ok: bool)
      modifies `halted
      ensures (State(), ok) == R.VerifyTC(old(State()), env, tc)
    {
      if tc.view == 0 {
        return true;
      }
      if tc.sig.None? {
        halted := true;
        return false;
      }
      return |tc.sig.value.Participants()| >= QuorumSize(n) && env.verify(tc.sig.value, ViewMsg(tc.view));
    }

    /** BatchVerify of the cache under the crypto module. */
    method BatchVerify(env: R.Env, sig: Signature, batch: map<ID, Message>) returns (ok: bool)
      modifies `batched
      ensures (State(), ok) == R.VerifyBatch(old(State()), env, sig, batch)
    {
      if sig in batched && env.keeps(sig) {
        return true;
      }
      ok := env.verifyBatch(sig, batch);
      if ok {
        batched := batched + {sig};
      }
    }

    /** Walks the QCs for the one with the largest view and the messages signed, then verifies the batch and that QC. */
    /** The loop over the aggregate's QCs: the highest one, and the messages that were signed. */
    static method WalkQCs(a: AggregateQC, ids: seq<ID>) returns (high: QuorumCert, messages: map<ID, Message>)
      ensures high == R.Highest(a.qcs, ids) && messages == R.Messages(a, ids)
    {
      high, messages := ZERO_QC, map[];
      for i := 0 to |ids|
        invariant high == R.Highest(a.qcs, ids[..i]) && messages == R.Messages(a, ids[..i])
      {
        assert ids[..i + 1][..i] == ids[..i];
        if ids[i] in a.qcs {
          if high.view < a.qcs[ids[i]].view || high == ZERO_QC {
            high := a.qcs[ids[i]];
          }
          messages := messages[ids[i] := TimeoutBytes(ids[i], a.view, a.qcs[ids[i]])];
        }
        assert messages == R.Messages(a, ids[..i + 1]);
      }
      assert ids[..|ids|] == ids;
    }

    method VerifyAggregateQC(env: R.Env, a: AggregateQC) returns (res: Option<QuorumCert>)
      modifies `blocks, `batched, `halted
      ensures (State(), res) == R.VerifyAgg(old(State()), env, a)
    {
      var high, messages := WalkQCs(a, env.order(a));
      if a.sig.None? {
        halted := true;
        return None;
      }
      if |a.sig.value.Participants()| < QuorumSize(n) {
        return None;
      }
      var good := BatchVerify(env, a.sig.value, messages);
      if !good {
        return None;
      }
      var ok := VerifyQuorumCert(env, high);
      res := if ok then Some(high) else None;
    }

    method UpdateHighQC(env: R.Env, qc: QuorumCert)
      modifies `blocks, `highQC
      ensures State() == R.UpdateHighQC(old(State()), env, qc)
    {
      var b := Get(env, qc.hash);
      if b.Some? && b.value.view > highQC.view {
        highQC := qc;
      }
    }

    method UpdateHighTC(tc: TimeoutCert)
      modifies `highTC
      ensures State() == R.UpdateHighTC(old(State()), tc)
    {
      if tc.view > highTC.view {
        highTC := tc;
      }
    }

    /** Executes on the way back up, so a missing ancestor leaves exec and executed alone. */
    method CommitInner(env: R.Env, b: Block) returns (ok: bool)
      modifies `blocks, `exec, `executed
      ensures (State(), ok) == R.CommitInner(old(State()), env, b)
      decreases b
    {
      if exec.view >= b.view {
        return true;
      }
      var p := Get(env, b.parent);
      if p.None? || HashOf(p.value) != b.parent {
        return false;
      }
      ok := CommitInner(env, p.value);
      if ok {
        executed := executed + [b];
        exec := b;
      }
    }

    method StopVoting(v: View)
      modifies `lastVote
      ensures State() == R.StopVoting(old(State()), v)
    {
      if lastVote < v {
        lastVote := v;
      }
    }

    method Commit(env: R.Env, b: Block)
      modifies `blocks, `exec, `executed, `history
      ensures State() == R.Commit(old(State()), env, b)
    {
      var before := exec.view;
      var ok := CommitInner(env, b);
      if ok && before < b.view {
        history := history + [R.Committed(b)];
      }
    }

    method ExamineAgg(env: R.Env, p: Proposal) returns (ok: bool)
      modifies `blocks, `batched, `halted
      ensures (State(), ok) == R.ExamineAgg(old(State()), env, p)
    {
      if useAgg && p.agg.Some? {
        var high := VerifyAggregateQC(env, p.agg.value);
        return high == Some(p.block.cert);
      }
      return true;
    }

    /** blockChain.Extends: walks back until the target's view. */
    method Extends(env: R.Env, b: Block, target: Block) returns (ok: bool)
      modifies `blocks
      ensures (State(), ok) == R.ExtendsWalk(old(State()), env, b, target)
    {
      var current := b;
      while current.view > target.view
        invariant R.ExtendsWalk(State(), env, current, target) == R.ExtendsWalk(old(State()), env, b, target)
        invariant State() == old(State()).(blocks := blocks)
        decreases current
      {
        var p := Get(env, current.parent);
        if p.None? || HashOf(p.value) != current.parent {
          return false;
        }
        current := p.value;
      }
      return current == target;
    }

    method VoteRule(env: R.Env, p: Proposal) returns (ok: bool)
      modifies `blocks
      ensures (State(), ok) == R.VoteRule(old(State()), env, p)
    {
      if !chained {
        return env.voteRule(p);
      }
      var b := Get(env, p.block.cert.hash);
      if b.Some? && b.value.view > lock.view {
        return true;
      }
      ok := Extends(env, p.block, lock);
    }

    method CertRef(env: R.Env, qc: QuorumCert) returns (b: Option<Block>)
      modifies `blocks
      ensures (State(), b) == R.CertRef(old(State()), env, qc)
    {
      if qc.hash.Junk? {
        return None;
      }
      b := Get(env, qc.hash);
    }

    /** Locks the block two certificates back; commits the one three back if parents link them. */
    method CommitRule(env: R.Env, b: Block) returns (c: Option<Block>)
      modifies `blocks, `lock
      ensures (State(), c) == R.CommitRule(old(State()), env, b)
    {
      if !chained {
        return env.commitRule(b);
      }
      var b1 := CertRef(env, b.cert);
      if b1.None? {
        return None;
      }
      var b2 := CertRef(env, b1.value.cert);
      if b2.None? {
        return None;
      }
      if b2.value.view > lock.view {
        lock := b2.value;
      }
      var b3 := CertRef(env, b2.value.cert);
      if b3.Some? && b1.value.parent == HashOf(b2.value) && b2.value.parent == HashOf(b3.value) {
        return b3;
      }
      return None;
    }

    method Examine(env: R.Env, p: Proposal) returns (ok: bool)
      modifies `blocks, `batched, `halted
      ensures (State(), ok) == R.Examine(old(State()), env, p)
    {
      ok := ExamineAgg(env, p);
      if ok {
        ok := VerifyQuorumCert(env, p.block.cert);
        if !ok || p.id != env.leader(p.block.view) {
          return false;
        }
        ok := VoteRule(env, p);
        if ok {
          var _ := Get(env, p.block.cert.hash);
          return env.accept(p.block.cmd);
        }
      }
    }

    method StoreAndCommit(env: R.Env, b: Block)
      modifies `blocks, `lock, `exec, `executed, `history
      ensures State() == R.StoreAndCommit(old(State()), env, b)
    {
      blocks := blocks[HashOf(b) := b];
      var c := CommitRule(env, b);
      if c.Some? {
        Commit(env, c.value);
      }
    }

    method CastVote(env: R.Env, b: Block)
      modifies `history, `lastVote
      ensures State() == R.CastVote(old(State()), env, b)
    {
      if !halted && b.view > lastVote && env.signs(BlockMsg(b)) {
        history := history + [R.Signed(BlockMsg(b))];
        lastVote := b.view;
      }
    }

    method OnPropose(env: R.Env, p: Proposal)
      modifies this
      ensures State() == R.OnPropose(old(State()), env, p)
      decreases R.Ahead(State(), p.block.cert), 3
    {
      if halted {
        return;
      }
      var ok := Examine(env, p);
      if ok {
        Take(env, p.block);
      }
    }

    method Take(env: R.Env, b: Block)
      modifies this
      ensures State() == R.Take(old(State()), env, b)
      decreases R.Ahead(State(), b.cert), 2
    {
      StoreAndCommit(env, b);
      R.CheckFrame(State(), env, R.JustQC(b.cert));
      AdvanceView(env, R.JustQC(b.cert));
      CastVote(env, b);
    }

    method Propose(env: R.Env, si: SyncInfo)
      modifies this
      ensures State() == R.Propose(old(State()), env, si)
      decreases R.Ahead(State(), R.CertOf(si)), 4
    {
      if si.qc.Some? {
        var _ := Get(env, si.qc.value.hash);
      }
      var b := Block(R.CertOf(si).hash, R.CertOf(si), env.cmd, view, id);
      blocks := blocks[HashOf(b) := b];
      OnPropose(env, Proposal(id, b, if useAgg then si.agg else None));
    }

    method TakeQC(env: R.Env, si: SyncInfo, qc: QuorumCert, v: View, ghost via: R.Entry) returns (v': View, ghost via': R.Entry)
      modifies `blocks, `highQC
      ensures R.Accepted(State(), si, v', via') == R.TakeQC(old(State()), env, si, qc, v, via)
    {
      UpdateHighQC(env, qc);
      v', via' := v, via;
      if qc.view >= v {
        v', via' := qc.view, R.ByQC(qc);
      }
    }

    /** The TC, then the aggregate QC or the QC, of a sync info: whether all verified, and the view they speak for. */
    method CheckCerts(env: R.Env, info: SyncInfo) returns (ok: bool, si: SyncInfo, v: View, ghost via: R.Entry)
      modifies `blocks, `batched, `highQC, `highTC, `halted
      ensures R.Check(old(State()), env, info) == (if ok then R.Accepted(State(), si, v, via) else R.Rejected(State()))
    {
      ok, si, v, via := true, info, 0, R.AtStart;
      if info.tc.Some? {
        ok := VerifyTimeoutCert(env, info.tc.value);
        if !ok {
          return;
        }
        UpdateHighTC(info.tc.value);
        v, via := info.tc.value.view, R.ByTC(info.tc.value);
      }
      assert R.CheckTC(old(State()), env, info) == R.Accepted(State(), info, v, via);
      ok, si, v, via := CheckQC(env, info, v, via);
    }

    method CheckQC(env: R.Env, info: SyncInfo, v0: View, ghost via0: R.Entry) returns (ok: bool, si: SyncInfo, v: View, ghost via: R.Entry)
      modifies `blocks, `batched, `highQC, `halted
      ensures R.CheckQC(old(State()), env, info, v0, via0) == (if ok then R.Accepted(State(), si, v, via) else R.Rejected(State()))
    {
      ok, si, v, via := true, info, v0, via0;
      if info.agg.Some? && useAgg {
        var high := VerifyAggregateQC(env, info.agg.value);
        if high.None? {
          ok := false;
          return;
        }
        if info.agg.value.view >= v {
          v, via := info.agg.value.view, R.ByAggQC(info.agg.value, R.Judged(env, info.agg.value));
        }
        si := info.(qc := high);
        v, via := TakeQC(env, si, high.value, v, via);
      } else if info.qc.Some? {
        ok := VerifyQuorumCert(env, info.qc.value);
        if ok {
          v, via := TakeQC(env, si, info.qc.value, v, via);
        }
      }
    }

    /** Enters the view after v unless it is past, and proposes in it as its leader. */
    method Enter(env: R.Env, si: SyncInfo, v: View, ghost via: R.Entry)
      requires R.CertOf(si).view <= v
      modifies this
      ensures State() == R.Enter(old(State()), env, si, v, via)
      decreases if v >= view then 1 else 0, 0
    {
      if halted || v < view {
        return;
      }
      view, entry, lastTimeout := v + 1, via, None;
      if env.leader(v + 1) == id {
        Propose(env, si);
      }
    }

    method AdvanceView(env: R.Env, info: SyncInfo)
      modifies this
      ensures State() == R.AdvanceView(old(State()), env, info)
      decreases R.Moves(State(), env, info), 1
    {
      if halted {
        return;
      }
      R.CheckFrame(State(), env, info);
      ghost var via;
      var ok, si, v;
      ok, si, v, via := CheckCerts(env, info);
      if ok {
        Enter(env, si, v, via);
      }
    }

    /** Drops the collected timeouts of views before v, one view at a time. */
    method Cleanup(v: View)
      modifies `timeouts
      ensures State() == R.Cleanup(old(State()), v)
    {
      var left := timeouts.Keys;
      while left != {}
        invariant left <= timeouts.Keys <= old(timeouts).Keys
        invariant forall u :: u in timeouts ==> timeouts[u] == old(timeouts)[u]
        invariant forall u :: u in old(timeouts) && (u in left || u >= v) ==> u in timeouts
        invariant forall u :: u in timeouts && u !in left ==> u >= v
        decreases left
      {
        var u :| u in left;
        left := left - {u};
        if u < v {
          timeouts := timeouts - {u};
        }
      }
      assert timeouts == map u | u in old(timeouts) && u >= v :: old(timeouts)[u];
    }

    method AddTimeout(t: TimeoutMsg)
      modifies `timeouts
      ensures State() == R.AddTimeout(old(State()), t)
    {
      if t.view !in timeouts {
        timeouts := timeouts[t.view := map[]];
      }
      if t.id !in timeouts[t.view] {
        var at: map<ID, TimeoutMsg> := timeouts[t.view][t.id := t];
        timeouts := timeouts[t.view := at];
      }
      assert timeouts == R.AddTimeout(old(State()), t).timeouts;
    }

    method CollectTimeout(env: R.Env, t: TimeoutMsg, current: View)
      modifies this
      ensures State() == R.CollectTimeout(old(State()), env, t, current)
    {
      if halted {
        return;
      }
      AddTimeout(t);
      var at := timeouts[t.view];
      if |at| < QuorumSize(n) {
        return;
      }
      var tc := R.CreateTC(env, at, t.view);
      if tc.None? {
        return;
      }
      var agg := if useAgg then R.CreateAgg(env, at, current) else None;
      timeouts := timeouts - {t.view};
      AdvanceView(env, SyncInfo(Some(highQC), tc, agg));
    }

    method OnRemoteTimeout(env: R.Env, t: TimeoutMsg)
      modifies this
      ensures State() == R.OnRemoteTimeout(old(State()), env, t)
    {
      if halted {
        return;
      }
      var current := view;
      if env.verify(t.viewSig, ViewMsg(t.view)) {
        AdvanceView(env, t.info);
        CollectTimeout(env, t, current);
      }
      Cleanup(current);
    }

    method SendTimeout(env: R.Env)
      modifies this
      ensures State() == R.SendTimeout(old(State()), env)
    {
      var t := TimeoutMsg(id, view, Signature(map[id := ViewMsg(view)]),
        if useAgg then Some(Signature(map[id := TimeoutBytes(id, view, highQC)])) else None,
        SyncInfo(Some(highQC), Some(highTC), None));
      lastTimeout := Some(view);
      StopVoting(view);
      history := history + [R.SentTimeout(view)];
      OnRemoteTimeout(env, t);
    }

    method OnLocalTimeout(env: R.Env)
      modifies this
      ensures State() == R.OnLocalTimeout(old(State()), env)
    {
      if halted {
        return;
      }
      if lastTimeout == Some(view) {
        history := history + [R.SentTimeout(view)];
        return;
      }
      if !env.signs(ViewMsg(view)) {
        return;
      }
      history := history + [R.Signed(ViewMsg(view))];
      if useAgg {
        var m := TimeoutBytes(id, view, highQC);
        if !env.signs(m) {
          return;
        }
        history := history + [R.Signed(m)];
      }
      SendTimeout(env);
    }

    /** The event loop's dispatch, with what the safety proof says of it. */
    method Handle(env: R.Env, e: R.Event, ghost log: set<S.Sig>, ghost config: set<ID>)
      requires S.RInv(log, config, State()) && S.Settled(State())
      requires S.Sound(S.Logged(log, R.Handle(State(), env, e)), config, env)
      modifies this
      ensures State() == R.Handle(old(State()), env, e)
      ensures S.Ok(S.Logged(log, State()), config, old(State()), State()) && S.Settled(State())
    {
      S.HandleOk(log, config, State(), env, e);
      match e
      case ProposalArrived(p) => OnPropose(env, p);
      case NewViewArrived(info) => AdvanceView(env, info);
      case TimeoutArrived(t) => OnRemoteTimeout(env, t);
      case LocalTimeout(v) => if v == view { OnLocalTimeout(env); }
      case StartProposing =>
        if view == 1 && env.leader(1) == id {
          Propose(env, SyncInfo(Some(highQC), Some(highTC), None));
        }
    }
  }
}
