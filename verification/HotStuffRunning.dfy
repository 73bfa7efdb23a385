/**
 When a HotStuff replica keeps running. Looking at a certificate without a signature
 dereferences nothing; for every state, the messages that lead there and those that do not.
 */
module HotStuffRunning {
  import opened HotStuffBlocks
  import opened HotStuffReplicas
  import opened HotStuffSafety
  import opened HotStuffVoting

  /** A certificate with no signature to look at; only genesis needs none. */
  predicate Unsigned(qc: QuorumCert) {
    qc.sig.None? && qc.hash != HashOf(GENESIS)
  }

  /** The aggregate has a signature, and if it gets as far as that so has its highest QC. */
  ghost predicate AggUsable(r: Replica, env: Env, a: AggregateQC) {
    && a.sig.Some?
    && (|a.sig.value.Participants()| >= QuorumSize(r.n) && VerifyBatch(r, env, a.sig.value, Messages(a, env.order(a))).1 ==>
          !Unsigned(Highest(a.qcs, env.order(a))))
  }

  lemma AggRuns(r: Replica, env: Env, a: AggregateQC)
    requires !r.halted
    ensures !VerifyAgg(r, env, a).0.halted <==> AggUsable(r, env, a)
  {
  }

  /** The QC of the sync info verifies, and so does the highest QC of its aggregate where one is used. */
  ghost predicate Good(r: Replica, env: Env, info: SyncInfo) {
    && !r.halted && StoreOk(r.blocks) && info.qc.Some? && VerifyQC(r, env, info.qc.value).1
    && (r.useAgg && info.agg.Some? ==>
          info.agg.value.sig.Some? && VerifyQC(r, env, Highest(info.agg.value.qcs, env.order(info.agg.value))).1)
  }

  lemma GoodMore(r: Replica, r': Replica, env: Env, info: SyncInfo)
    requires Good(r, env, info) && !r'.halted && Sees(r, r', env) && r'.useAgg == r.useAgg
    ensures Good(r', env, info)
  {
    VerifiesMore(r, r', env, info.qc.value);
    if r.useAgg && info.agg.Some? {
      VerifiesMore(r, r', env, Highest(info.agg.value.qcs, env.order(info.agg.value)));
    }
  }

  lemma TakeGood(r: Replica, env: Env, si: SyncInfo, qc: QuorumCert, v: View, entry: Entry)
    requires Good(r, env, si)
    ensures Good(TakeQC(r, env, si, qc, v, entry).r, env, si)
  {
    var r' := TakeQC(r, env, si, qc, v, entry).r;
    GetKeepsStore(r, env, qc.hash);
    GetGrows(r, env, qc.hash);
    KeysSee(r, r', env);
    GoodMore(r, r', env, si);
  }

  // ----- a leader's own proposal -----

  lemma OwnExamined(r: Replica, env: Env, p: Proposal)
    requires Good(r, env, SyncInfo(Some(p.block.cert), None, p.agg))
    ensures var (r', ok) := Examine(r, env, p); !r'.halted && StoreOk(r'.blocks) && Sees(r, r', env)
  {
    var r1 := ExamineAgg(r, env, p).0;
    AggAvail(r, env, p);
    ExamineAvail(r, env, p);
    OwnAgg(r, env, p);
    VerifiesMore(r, r1, env, p.block.cert);
    assert !VerifyQC(r1, env, p.block.cert).0.halted;
  }

  lemma OwnAgg(r: Replica, env: Env, p: Proposal)
    requires Good(r, env, SyncInfo(Some(p.block.cert), None, p.agg))
    ensures !ExamineAgg(r, env, p).0.halted
  {
    if r.useAgg && p.agg.Some? {
      var a := p.agg.value;
      var r0 := VerifyBatch(r, env, a.sig.value, Messages(a, env.order(a))).0;
      SameBlocks(r, r0, env);
      VerifiesMore(r, r0, env, Highest(a.qcs, env.order(a)));
    }
  }

  /** Proposing on a good sync info of earlier views leaves the replica running, in its view. */
  lemma {:induction false} ProposeStays(r: Replica, env: Env, si: SyncInfo)
    requires Good(r, env, si) && CertOf(si).view < r.view
    ensures var r' := Propose(r, env, si);
      && !r'.halted && r'.id == r.id && r'.view == r.view && r'.entry == r.entry
      && r'.highTC == r.highTC && r'.timeouts == r.timeouts && r'.lastTimeout == r.lastTimeout
  {
    var qc := si.qc.value;
    GetKeepsStore(r, env, qc.hash);
    GetGrows(r, env, qc.hash);
    var r1 := Get(r, env, qc.hash).0;
    var b := NewBlock(r1, env, si);
    var r2, p := r1.(blocks := r1.blocks[HashOf(b) := b]), Proposal(r.id, b, if r.useAgg then si.agg else None);
    KeysSee(r, r2, env);
    VerifiesMore(r, r2, env, qc);
    if r.useAgg && si.agg.Some? {
      VerifiesMore(r, r2, env, Highest(si.agg.value.qcs, env.order(si.agg.value)));
    }
    assert Propose(r, env, si) == OnPropose(r2, env, p);
    OwnExamined(r2, env, p);
    var (r3, ok) := Examine(r2, env, p);
    if ok {
      VerifiesMore(r2, r3, env, qc);
      TakeStays(r3, env, b);
    }
  }

  lemma {:induction false} TakeStays(r: Replica, env: Env, b: Block)
    requires !r.halted && StoreOk(r.blocks) && VerifyQC(r, env, b.cert).1 && b.cert.view < r.view
    ensures var r' := Take(r, env, b);
      && !r'.halted && r'.id == r.id && r'.view == r.view && r'.entry == r.entry
      && r'.highTC == r.highTC && r'.timeouts == r.timeouts && r'.lastTimeout == r.lastTimeout
  {
    var r1 := StoreAndCommit(r, env, b);
    StoreGrows(r, env, b);
    StoreAndCommitKeepsStore(r, env, b);
    KeysSee(r, r1, env);
    VerifiesMore(r, r1, env, b.cert);
    TakeAdvances(r1, env, b.cert);
    var c := Check(r1, env, JustQC(b.cert));
    assert AdvanceView(r1, env, JustQC(b.cert)) == c.r;
  }

  /** A good sync info of the replica's view or a later one takes it to the next view, as a leader or not. */
  lemma {:induction false} EnterStays(r: Replica, env: Env, info: SyncInfo, v: View, entry: Entry)
    requires Good(r, env, info) && CertOf(info).view <= v
    ensures var r' := Enter(r, env, info, v, entry);
      && !r'.halted && r'.id == r.id && r'.highTC == r.highTC && r'.timeouts == r.timeouts
      && (v >= r.view ==> r'.view == v + 1 && r'.entry == entry && r'.lastTimeout == None)
  {
    if v >= r.view {
      var r1 := EnterView(r, v, entry);
      SameBlocks(r, r1, env);
      GoodMore(r, r1, env, info);
      if env.leader(v + 1) == r.id {
        ProposeStays(r1, env, info);
      }
    }
  }

  // ----- signing when the certificate of a block takes the replica to a view it leads -----

  /** The votes cast on the way are for blocks of view v, and the last vote moved there or not at all. */
  ghost predicate VotesIn(r: Replica, r': Replica, v: View) {
    && r.history <= r'.history && (r'.lastVote == r.lastVote || r.lastVote < r'.lastVote == v)
    && forall i :: |r.history| <= i < |r'.history| && IsVote(r'.history[i]) ==> r'.history[i].msg.block.view == v
  }

  lemma {:induction false} TakeVotes(r: Replica, env: Env, b: Block)
    requires !r.halted && StoreOk(r.blocks) && VerifyQC(r, env, b.cert).1 && b.cert.view < r.view
    ensures VotesIn(r, Take(r, env, b), b.view)
  {
    var r1 := StoreAndCommit(r, env, b);
    StoreSigns(r, env, b);
    StoreGrows(r, env, b);
    StoreAndCommitKeepsStore(r, env, b);
    KeysSee(r, r1, env);
    VerifiesMore(r, r1, env, b.cert);
    TakeAdvances(r1, env, b.cert);
    var c := Check(r1, env, JustQC(b.cert));
    assert AdvanceView(r1, env, JustQC(b.cert)) == c.r;
  }

  lemma {:induction false} ProposeVotes(r: Replica, env: Env, si: SyncInfo)
    requires Good(r, env, si) && CertOf(si).view < r.view
    ensures VotesIn(r, Propose(r, env, si), r.view)
  {
    var qc := si.qc.value;
    GetKeepsStore(r, env, qc.hash);
    GetGrows(r, env, qc.hash);
    var r1 := Get(r, env, qc.hash).0;
    var b := NewBlock(r1, env, si);
    var r2, p := r1.(blocks := r1.blocks[HashOf(b) := b]), Proposal(r.id, b, if r.useAgg then si.agg else None);
    KeysSee(r, r2, env);
    GoodMore(r, r2, env, si);
    assert Propose(r, env, si) == OnPropose(r2, env, p);
    OwnExamined(r2, env, p);
    var (r3, ok) := Examine(r2, env, p);
    if ok {
      VerifiesMore(r2, r3, env, qc);
      TakeVotes(r3, env, b);
    }
  }

  lemma {:induction false} EnterVotes(r: Replica, env: Env, info: SyncInfo, v: View, entry: Entry)
    requires Good(r, env, info) && CertOf(info).view <= v
    ensures VotesIn(r, Enter(r, env, info, v, entry), v + 1)
  {
    if v >= r.view && env.leader(v + 1) == r.id {
      var r1 := EnterView(r, v, entry);
      SameBlocks(r, r1, env);
      GoodMore(r, r1, env, info);
      ProposeVotes(r1, env, info);
    }
  }

  /** The vote on b, cast after votes in an earlier view. */
  lemma CastAfter(r: Replica, r2: Replica, r3: Replica, env: Env, b: Block, v: View)
    requires (r2.history == r.history || exists c :: r2.history == r.history + [Committed(c)]) && r2.lastVote == r.lastVote
    requires VotesIn(r2, r3, v) && !r3.halted && b.view > v
    ensures SignedNow(r, CastVote(r3, env, b), b) <==> b.view > r.lastVote && env.signs(BlockMsg(b))
  {
    var r', n := CastVote(r3, env, b), |r.history|;
    assert forall i :: n <= i < |r3.history| ==> r3.history[i] != Signed(BlockMsg(b));
    if b.view > r.lastVote && env.signs(BlockMsg(b)) {
      assert r'.history[n..][|r3.history| - n] == Signed(BlockMsg(b));
    } else {
      assert r' == r3;
      assert forall i :: 0 <= i < |r3.history| - n ==> r3.history[n..][i] == r3.history[n + i];
    }
  }

  /**
   A block of a view later than the one its certificate leads to is signed exactly under the
   same conditions by every replica, also by one that this certificate takes to a view where
   it first proposes and signs a block of its own.
   */
  lemma {:induction false} LaterSignsIff(r: Replica, env: Env, p: Proposal)
    requires !r.halted && StoreOk(r.blocks) && p.block.view > p.block.cert.view + 1
    ensures var r', b := OnPropose(r, env, p), p.block;
      SignedNow(r, r', b) <==> Acceptable(r, env, p) && b.view > r.lastVote && env.signs(BlockMsg(b))
  {
    var b := p.block;
    ExamineIff(r, env, p);
    if Acceptable(r, env, p) {
      LaterSigns(r, env, p);
    } else {
      RefusedKeeps(r, env, p);
    }
  }

  lemma {:induction false} LaterSigns(r: Replica, env: Env, p: Proposal)
    requires !r.halted && StoreOk(r.blocks) && p.block.view > p.block.cert.view + 1 && Acceptable(r, env, p)
    ensures var r', b := OnPropose(r, env, p), p.block; SignedNow(r, r', b) <==> b.view > r.lastVote && env.signs(BlockMsg(b))
  {
    var b, r1 := p.block, Examine(r, env, p).0;
    ExamineIff(r, env, p);
    ExamineAvail(r, env, p);
    ExamineRuns(r, env, p);
    var r2 := StoreAndCommit(r1, env, b);
    StoreGrows(r1, env, b);
    StoreSigns(r1, env, b);
    StoreAndCommitKeepsStore(r1, env, b);
    KeysSee(r1, r2, env);
    VerifiesMore(r, r1, env, b.cert);
    VerifiesMore(r1, r2, env, b.cert);
    var r3 := AdvanceView(r2, env, JustQC(b.cert));
    AdvanceVotes(r2, env, b.cert);
    assert OnPropose(r, env, p) == CastVote(r3, env, b);
    CastAfter(r, r2, r3, env, b, b.cert.view + 1);
  }

  lemma {:induction false} AdvanceVotes(r: Replica, env: Env, qc: QuorumCert)
    requires !r.halted && StoreOk(r.blocks) && VerifyQC(r, env, qc).1
    ensures var r' := AdvanceView(r, env, JustQC(qc)); !r'.halted && VotesIn(r, r', qc.view + 1)
  {
    TakeAdvances(r, env, qc);
    var c := Check(r, env, JustQC(qc));
    KeysSee(r, c.r, env);
    VerifiesMore(r, c.r, env, qc);
    EnterStays(c.r, env, c.info, c.view, c.entry);
    EnterVotes(c.r, env, c.info, c.view, c.entry);
    assert AdvanceView(r, env, JustQC(qc)) == Enter(c.r, env, c.info, c.view, c.entry);
  }

  // ----- exactly when it stops -----

  lemma CheckQCRuns(r: Replica, env: Env, si: SyncInfo, v: View, entry: Entry)
    requires !r.halted && StoreOk(r.blocks) && (si.qc.Some? || (si.agg.Some? && r.useAgg))
    ensures var c := CheckQC(r, env, si, v, entry);
      && (!c.r.halted <==> if si.agg.Some? && r.useAgg then AggUsable(r, env, si.agg.value) else !Unsigned(si.qc.value))
      && (c.Accepted? ==> Good(c.r, env, c.info))
  {
    if si.agg.Some? && r.useAgg {
      AggChecked(r, env, si, v, entry);
    } else {
      var qc := si.qc.value;
      var (r1, ok) := VerifyQC(r, env, qc);
      QCAvail(r, env, qc);
      if ok {
        VerifiesMore(r, r1, env, qc);
        TakeGood(r1, env, si, qc, v, entry);
      }
    }
  }

  lemma AggChecked(r: Replica, env: Env, si: SyncInfo, v: View, entry: Entry)
    requires !r.halted && StoreOk(r.blocks) && si.agg.Some? && r.useAgg
    ensures var c := CheckQC(r, env, si, v, entry);
      (!c.r.halted <==> AggUsable(r, env, si.agg.value)) && (c.Accepted? ==> Good(c.r, env, c.info))
  {
    var a := si.agg.value;
    var (r1, high) := VerifyAgg(r, env, a);
    AggRuns(r, env, a);
    if high.Some? {
      var r0 := VerifyBatch(r, env, a.sig.value, Messages(a, env.order(a))).0;
      QCAvail(r0, env, high.value);
      VerifiesMore(r0, r1, env, high.value);
      TakeGood(r1, env, si.(qc := high), high.value, if a.view >= v then a.view else v, if a.view >= v then ByAggQC(a, Judged(env, a)) else entry);
    }
  }

  /** The timeout certificate needs no signature or has one. */
  predicate TCUsable(tc: TimeoutCert) {
    tc.view == 0 || tc.sig.Some?
  }

  /** The certificates looked at have signatures, and a leader is not left to propose on none. */
  ghost predicate Usable(r: Replica, env: Env, si: SyncInfo) {
    var v := if si.tc.Some? then si.tc.value.view else 0;
    && (si.tc.Some? ==> TCUsable(si.tc.value))
    && ((si.tc.Some? && !VerifyTC(r, env, si.tc.value).1)
        || if si.agg.Some? && r.useAgg then AggUsable(r, env, si.agg.value)
           else if si.qc.Some? then !Unsigned(si.qc.value)
           else v < r.view || env.leader(v + 1) != r.id)
  }

  lemma EmptyQCExamined(r: Replica, env: Env, p: Proposal)
    requires p.block.cert == ZERO_QC && (p.agg.None? || !r.useAgg)
    ensures Examine(r, env, p) == (r.(halted := true), false)
  {
  }

  /** A leader that enters its view on a timeout certificate alone has only the empty QC to propose on. */
  lemma {:induction false} EmptyQCStops(r: Replica, env: Env, info: SyncInfo, v: View, entry: Entry)
    requires !r.halted && info.qc.None? && (info.agg.None? || !r.useAgg)
    ensures CertOf(info).view <= v
    ensures Enter(r, env, info, v, entry).halted <==> v >= r.view && env.leader(v + 1) == r.id
  {
    if v >= r.view && env.leader(v + 1) == r.id {
      var r1 := EnterView(r, v, entry);
      var b := NewBlock(r1, env, info);
      var r2, p := r1.(blocks := r1.blocks[HashOf(b) := b]), Proposal(r.id, b, if r.useAgg then info.agg else None);
      EmptyQCExamined(r2, env, p);
      assert Enter(r, env, info, v, entry) == Propose(r1, env, info) == OnPropose(r2, env, p);
    }
  }

  predicate HasQC(r: Replica, si: SyncInfo) {
    si.qc.Some? || (si.agg.Some? && r.useAgg)
  }

  lemma CheckRuns(r: Replica, env: Env, si: SyncInfo)
    requires !r.halted && StoreOk(r.blocks) && HasQC(r, si)
    ensures var c := Check(r, env, si); (!c.r.halted <==> Usable(r, env, si)) && (c.Accepted? ==> Good(c.r, env, c.info))
  {
    var t := CheckTC(r, env, si);
    if t.Accepted? {
      CheckQCRuns(t.r, env, si, t.view, t.entry);
      if si.agg.Some? && r.useAgg {
        assert AggUsable(t.r, env, si.agg.value) <==> AggUsable(r, env, si.agg.value);
      }
    }
  }

  lemma {:induction false} RunsWithoutQC(r: Replica, env: Env, si: SyncInfo)
    requires !r.halted && !HasQC(r, si)
    ensures !AdvanceView(r, env, si).halted <==> Usable(r, env, si)
  {
    var t := CheckTC(r, env, si);
    if t.Accepted? {
      EmptyQCStops(t.r, env, si, t.view, t.entry);
      assert AdvanceView(r, env, si) == Enter(t.r, env, si, t.view, t.entry);
    }
  }

  /** A replica survives a sync info exactly when it is usable. */
  lemma {:induction false} RunsIff(r: Replica, env: Env, si: SyncInfo)
    requires !r.halted && StoreOk(r.blocks)
    ensures !AdvanceView(r, env, si).halted <==> Usable(r, env, si)
  {
    if HasQC(r, si) {
      var c := Check(r, env, si);
      CheckRuns(r, env, si);
      CheckFrame(r, env, si);
      if c.Accepted? {
        EnterStays(c.r, env, c.info, c.view, c.entry);
        assert AdvanceView(r, env, si) == Enter(c.r, env, c.info, c.view, c.entry);
      } else {
        assert AdvanceView(r, env, si) == c.r;
      }
    } else {
      RunsWithoutQC(r, env, si);
    }
  }

  /** A replica survives a proposal exactly when the certificates it looks at have signatures. */
  lemma {:induction false} ProposalRunsIff(r: Replica, env: Env, p: Proposal)
    requires !r.halted && StoreOk(r.blocks)
    ensures !OnPropose(r, env, p).halted <==>
      (r.useAgg && p.agg.Some? ==> AggUsable(r, env, p.agg.value)) && (AggVouches(r, env, p) ==> !Unsigned(p.block.cert))
  {
    var b := p.block;
    var (r1, agg) := ExamineAgg(r, env, p);
    if r.useAgg && p.agg.Some? {
      AggRuns(r, env, p.agg.value);
    }
    var (r2, ok) := Examine(r, env, p);
    ExamineAvail(r, env, p);
    if ok {
      ExamineIff(r, env, p);
      ExamineRuns(r, env, p);
      var r3 := StoreAndCommit(r2, env, b);
      StoreAndCommitKeepsStore(r2, env, b);
      RunsIff(r3, env, JustQC(b.cert));
    }
  }
}
