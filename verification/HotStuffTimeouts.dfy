/**
 Timeouts make a view change: for every number of replicas, a quorum's timeouts of
 a view, arriving one by one, take a replica to the next view, and fewer do not.
 */
module HotStuffTimeouts {
  import opened HotStuffBlocks
  import opened HotStuffReplicas
  import opened HotStuffSafety
  import opened HotStuffVoting
  import opened HotStuffRunning

  /** One timeout after another. */
  function HandleAll(r: Replica, env: Env, ts: seq<TimeoutMsg>): Replica {
    if ts == [] then r else Handle(HandleAll(r, env, ts[..|ts| - 1]), env, TimeoutArrived(ts[|ts| - 1]))
  }

  /** The first timeout of each sender. */
  function Received(ts: seq<TimeoutMsg>): map<ID, TimeoutMsg> {
    if ts == [] then map[]
    else
      var before, t := Received(ts[..|ts| - 1]), ts[|ts| - 1];
      if t.id in before then before else before[t.id := t]
  }

  /** A certificate that carries a signature, or needs none, and is of an earlier view. */
  predicate Old(si: SyncInfo, v: View) {
    && si.agg.None?
    && (si.tc.Some? ==> si.tc.value.view < v && (si.tc.value.view == 0 || si.tc.value.sig.Some?))
    && (si.qc.Some? ==> si.qc.value.view < v && (si.qc.value.hash == HashOf(GENESIS) || si.qc.value.sig.Some?))
  }

  /** A timeout of view v whose signature verifies and whose certificates are of earlier views. */
  predicate Timeout(env: Env, v: View, t: TimeoutMsg) {
    t.view == v && env.verify(t.viewSig, ViewMsg(v)) && Old(t.info, v)
  }

  /** A replica in view v, with certificates of earlier views, the QC one that verifies. */
  ghost predicate InView(r: Replica, env: Env, v: View) {
    && !r.halted && StoreOk(r.blocks) && r.view == v && r.highTC.view < v
    && r.highQC.view < v && VerifyQC(r, env, r.highQC).1
  }

  /** The certificates a timeout carries may be taken over; the replica stays in its view. */
  lemma {:induction false} OldInfoStays(r: Replica, env: Env, v: View, si: SyncInfo)
    requires InView(r, env, v) && Old(si, v)
    ensures var r' := AdvanceView(r, env, si);
      InView(r', env, v) && Sees(r, r', env) && r' == r.(blocks := r'.blocks, batched := r'.batched, highQC := r'.highQC, highTC := r'.highTC)
  {
    CheckFrame(r, env, si);
    OldCheck(r, env, v, si);
  }

  lemma OldCheck(r: Replica, env: Env, v: View, si: SyncInfo)
    requires InView(r, env, v) && Old(si, v)
    ensures var c := Check(r, env, si); InView(c.r, env, v) && Sees(r, c.r, env) && (c.Accepted? ==> c.view < v)
  {
    var t := CheckTC(r, env, si);
    SameBlocks(r, t.r, env);
    VerifiesMore(r, t.r, env, r.highQC);
    if t.Accepted? && si.qc.Some? {
      QCTaken(t.r, env, v, si, t.view, t.entry);
      SeesTrans(r, t.r, Check(r, env, si).r, env);
    }
  }

  lemma SeesTrans(r: Replica, r1: Replica, r2: Replica, env: Env)
    requires Sees(r, r1, env) && Sees(r1, r2, env)
    ensures Sees(r, r2, env)
  {
    forall h | Avail(r, env, h) ensures Avail(r2, env, h) {
      assert Avail(r1, env, h);
    }
  }

  lemma QCTaken(r: Replica, env: Env, v: View, si: SyncInfo, w: View, entry: Entry)
    requires InView(r, env, v) && Old(si, v) && w < v && si.qc.Some?
    ensures var c := CheckQC(r, env, si, w, entry); InView(c.r, env, v) && Sees(r, c.r, env) && (c.Accepted? ==> c.view < v)
  {
    var qc := si.qc.value;
    var r1 := VerifyQC(r, env, qc).0;
    QCAvail(r, env, qc);
    VerifiesMore(r, r1, env, r.highQC);
    if VerifyQC(r, env, qc).1 {
      VerifiesMore(r, r1, env, qc);
      HighQCStays(r1, env, qc);
      SeesTrans(r, r1, UpdateHighQC(r1, env, qc), env);
    }
  }

  /** Taking a QC that verifies leaves the highest QC one that does. */
  lemma HighQCStays(r: Replica, env: Env, qc: QuorumCert)
    requires StoreOk(r.blocks) && VerifyQC(r, env, qc).1 && VerifyQC(r, env, r.highQC).1
    ensures var r' := UpdateHighQC(r, env, qc);
      StoreOk(r'.blocks) && Sees(r, r', env) && VerifyQC(r', env, r'.highQC).1 && r'.highQC in {r.highQC, qc}
  {
    GetIs(r, env, qc.hash);
    GetGrows(r, env, qc.hash);
    var r' := UpdateHighQC(r, env, qc);
    KeysSee(r, r', env);
    VerifiesMore(r, r', env, qc);
    VerifiesMore(r, r', env, r.highQC);
  }

  // ----- one timeout -----

  /** The timeouts kept: others of later views, and these of view v. */
  function Kept(others: map<View, map<ID, TimeoutMsg>>, v: View, at: map<ID, TimeoutMsg>): map<View, map<ID, TimeoutMsg>> {
    if at == map[] then others else others[v := at]
  }

  /** The replica is in view v and has filed exactly these timeouts of it. */
  ghost predicate Holds(r: Replica, env: Env, v: View, others: map<View, map<ID, TimeoutMsg>>, at: map<ID, TimeoutMsg>) {
    InView(r, env, v) && (forall w :: w in others ==> w > v) && r.timeouts == Kept(others, v, at)
  }

  /** What the timeouts combine to is a certificate of view v. */
  ghost predicate Combines(env: Env, n: nat, at: map<ID, TimeoutMsg>, v: View, tc: TimeoutCert) {
    && tc.view == v && tc.sig.Some? && env.combineViews(at) == tc.sig
    && |tc.sig.value.Participants()| >= QuorumSize(n) && env.verify(tc.sig.value, ViewMsg(v))
  }

  /** The replica has entered view v + 1 as the entry says, with the certificate as its highest. */
  ghost predicate Changed(r: Replica, v: View, tc: TimeoutCert, entry: Entry, others: map<View, map<ID, TimeoutMsg>>) {
    !r.halted && r.view == v + 1 && r.entry == entry && r.highTC == tc && r.timeouts == others && r.lastTimeout == None
  }

  /** The aggregate of the QCs that the timeouts carry, for view v. */
  ghost predicate Aggregates(env: Env, at: map<ID, TimeoutMsg>, v: View, a: AggregateQC) {
    && a.view == v && a.sig.Some? && env.combineMsgs(at) == a.sig
    && (forall id :: id in a.qcs <==> id in at && at[id].info.qc.Some?)
    && (forall id :: id in a.qcs ==> a.qcs[id] == at[id].info.qc.value)
  }

  /** The aggregate is a quorum's, its batch is accepted, and its highest QC verifies and is of an earlier view. */
  ghost predicate AggHolds(r: Replica, env: Env, a: AggregateQC, v: View) {
    var high := Highest(a.qcs, env.order(a));
    && a.sig.Some? && |a.sig.value.Participants()| >= QuorumSize(r.n) && env.verifyBatch(a.sig.value, Messages(a, env.order(a)))
    && VerifyQC(r, env, high).1 && high.view < v
  }

  /** The entry that the quorum's timeouts lead to: the timeout certificate, or the aggregate where one is used. */
  ghost predicate EntryFor(r: Replica, env: Env, at: map<ID, TimeoutMsg>, v: View, tc: TimeoutCert, entry: Entry) {
    if r.useAgg then entry.ByAggQC? && entry.judged && Aggregates(env, at, v, entry.agg) && AggHolds(r, env, entry.agg, v)
    else entry == ByTC(tc)
  }

  function Add(at: map<ID, TimeoutMsg>, t: TimeoutMsg): map<ID, TimeoutMsg> {
    if t.id in at then at else at[t.id := t]
  }

  /** A verified timeout certificate passes, and becomes the highest. */
  lemma {:induction false} TCPasses(r: Replica, env: Env, v: View, tc: TimeoutCert, si: SyncInfo)
    requires InView(r, env, v) && v > 0 && tc.view == v && tc.sig.Some? && |tc.sig.value.Participants()| >= QuorumSize(r.n)
    requires env.verify(tc.sig.value, ViewMsg(v)) && si.tc == Some(tc)
    ensures CheckTC(r, env, si) == Accepted(r.(highTC := tc), si, v, ByTC(tc))
  {
  }

  lemma {:induction false} CertificateAdvances(r: Replica, env: Env, v: View, tc: TimeoutCert)
    requires InView(r, env, v) && v > 0 && tc.view == v && tc.sig.Some? && |tc.sig.value.Participants()| >= QuorumSize(r.n)
    requires env.verify(tc.sig.value, ViewMsg(v))
    ensures Changed(AdvanceView(r, env, SyncInfo(Some(r.highQC), Some(tc), None)), v, tc, ByTC(tc), r.timeouts)
  {
    var si := SyncInfo(Some(r.highQC), Some(tc), None);
    var r1 := r.(highTC := tc);
    TCPasses(r, env, v, tc, si);
    SameBlocks(r, r1, env);
    VerifiesMore(r, r1, env, r.highQC);
    var r2 := VerifyQC(r1, env, r.highQC).0;
    QCAvail(r1, env, r.highQC);
    VerifiesMore(r1, r2, env, r.highQC);
    assert CheckQC(r1, env, si, v, ByTC(tc)) == TakeQC(r2, env, si, r.highQC, v, ByTC(tc));
    TakeQCFrame(r2, env, si, r.highQC, v, ByTC(tc));
    TakeGood(r2, env, si, r.highQC, v, ByTC(tc));
    var c := Check(r, env, si);
    assert AdvanceView(r, env, si) == Enter(c.r, env, c.info, c.view, c.entry);
    EnterStays(c.r, env, c.info, v, ByTC(tc));
  }

  lemma {:induction false} AggregateAdvances(r: Replica, env: Env, v: View, tc: TimeoutCert, a: AggregateQC)
    requires InView(r, env, v) && r.useAgg && v > 0 && tc.view == v && tc.sig.Some? && |tc.sig.value.Participants()| >= QuorumSize(r.n)
    requires env.verify(tc.sig.value, ViewMsg(v)) && a.view == v && AggHolds(r, env, a, v)
    ensures Changed(AdvanceView(r, env, SyncInfo(Some(r.highQC), Some(tc), Some(a))), v, tc, ByAggQC(a, true), r.timeouts)
  {
    var si, high := SyncInfo(Some(r.highQC), Some(tc), Some(a)), Highest(a.qcs, env.order(a));
    var r1 := r.(highTC := tc);
    TCPasses(r, env, v, tc, si);
    var r2 := VerifyBatch(r1, env, a.sig.value, Messages(a, env.order(a))).0;
    SameBlocks(r, r2, env);
    VerifiesMore(r, r2, env, high);
    var r3 := VerifyQC(r2, env, high).0;
    QCAvail(r2, env, high);
    VerifiesMore(r2, r3, env, high);
    assert VerifyAgg(r1, env, a) == (r3, Some(high));
    TakeQCFrame(r3, env, si.(qc := Some(high)), high, v, ByAggQC(a, true));
    TakeGood(r3, env, si.(qc := Some(high)), high, v, ByAggQC(a, true));
    var c := TakeQC(r3, env, si.(qc := Some(high)), high, v, ByAggQC(a, true));
    assert CheckQC(r1, env, si, v, ByTC(tc)) == c == Check(r, env, si);
    assert AdvanceView(r, env, si) == Enter(c.r, env, c.info, c.view, c.entry);
    EnterStays(c.r, env, c.info, v, ByAggQC(a, true));
  }

  lemma TimeoutFiles(r: Replica, env: Env, v: View, others: map<View, map<ID, TimeoutMsg>>, at: map<ID, TimeoutMsg>, t: TimeoutMsg)
    requires Holds(r, env, v, others, at) && t.view == v
    ensures AddTimeout(r, t) == r.(timeouts := others[v := Add(at, t)]) && (v in r.timeouts ==> r.timeouts[v] == at) && (v !in r.timeouts ==> at == map[])
  {
  }

  lemma CleanupKeeps(r: Replica, v: View, others: map<View, map<ID, TimeoutMsg>>, at: map<ID, TimeoutMsg>)
    requires (forall w :: w in others ==> w > v) && (r.timeouts == others || r.timeouts == others[v := at])
    ensures Cleanup(r, v) == r
  {
    assert Cleanup(r, v).timeouts == r.timeouts;
  }

  /** A timeout short of the quorum is filed, unless its sender has one filed. */
  lemma {:induction false} TimeoutIsFiled(r: Replica, env: Env, v: View, others: map<View, map<ID, TimeoutMsg>>, at: map<ID, TimeoutMsg>, t: TimeoutMsg)
    requires Holds(r, env, v, others, at) && t.view == v && |Add(at, t)| < QuorumSize(r.n)
    ensures Holds(Cleanup(CollectTimeout(r, env, t, v), v), env, v, others, Add(at, t))
  {
    TimeoutFiles(r, env, v, others, at, t);
    var r1 := AddTimeout(r, t);
    FiledStays(r, r1, env, v);
    CleanupKeeps(r1, v, others, Add(at, t));
  }

  /** The timeout that makes the quorum changes the view. */
  lemma {:induction false} QuorumChanges(r: Replica, env: Env, v: View, others: map<View, map<ID, TimeoutMsg>>, at: map<ID, TimeoutMsg>, t: TimeoutMsg, tc: TimeoutCert, entry: Entry)
    requires Holds(r, env, v, others, at) && t.view == v > 0
    requires |Add(at, t)| >= QuorumSize(r.n) && Combines(env, r.n, Add(at, t), v, tc) && EntryFor(r, env, Add(at, t), v, tc, entry)
    ensures Changed(Cleanup(CollectTimeout(r, env, t, v), v), v, tc, entry, others)
  {
    TimeoutFiles(r, env, v, others, at, t);
    var r2 := r.(timeouts := others);
    FiledStays(r, r2, env, v);
    if r.useAgg {
      SameBlocks(r, r2, env);
      VerifiesMore(r, r2, env, Highest(entry.agg.qcs, env.order(entry.agg)));
      AggregateAdvances(r2, env, v, tc, entry.agg);
      AggregateIs(env, Add(at, t), v, entry.agg);
    } else {
      CertificateAdvances(r2, env, v, tc);
    }
    CollectIs(r, env, v, others, at, t, tc);
    CleanupKeeps(AdvanceView(r2, env, SyncInfo(Some(r2.highQC), Some(tc), if r.useAgg then CreateAgg(env, Add(at, t), v) else None)), v, others, at);
  }

  lemma AggregateIs(env: Env, at: map<ID, TimeoutMsg>, v: View, a: AggregateQC)
    requires Aggregates(env, at, v, a)
    ensures CreateAgg(env, at, v) == Some(a)
  {
    assert CreateAgg(env, at, v).value.qcs == a.qcs;
  }

  lemma {:induction false} CollectIs(r: Replica, env: Env, v: View, others: map<View, map<ID, TimeoutMsg>>, at: map<ID, TimeoutMsg>, t: TimeoutMsg, tc: TimeoutCert)
    requires !r.halted && v !in others && AddTimeout(r, t) == r.(timeouts := others[v := Add(at, t)]) && t.view == v > 0
    requires |Add(at, t)| >= QuorumSize(r.n) && Combines(env, r.n, Add(at, t), v, tc)
    ensures CollectTimeout(r, env, t, v) ==
      AdvanceView(r.(timeouts := others), env, SyncInfo(Some(r.highQC), Some(tc), if r.useAgg then CreateAgg(env, Add(at, t), v) else None))
  {
    var r1 := AddTimeout(r, t);
    assert r1.timeouts - {v} == others;
    assert CreateTC(env, Add(at, t), v) == Some(tc);
  }

  /** One timeout: filed, and with the one that makes the quorum the replica changes view. */
  lemma {:induction false} OneTimeout(r: Replica, env: Env, v: View, others: map<View, map<ID, TimeoutMsg>>, at: map<ID, TimeoutMsg>, t: TimeoutMsg, tc: TimeoutCert, entry: Entry)
    requires Holds(r, env, v, others, at) && Timeout(env, v, t) && v > 0
    requires |Add(at, t)| >= QuorumSize(r.n) ==> Combines(env, r.n, Add(at, t), v, tc) && EntryFor(r, env, Add(at, t), v, tc, entry)
    ensures var r' := Handle(r, env, TimeoutArrived(t));
      if |Add(at, t)| < QuorumSize(r.n) then Holds(r', env, v, others, Add(at, t)) && Alike(r, r', env) else Changed(r', v, tc, entry, others)
  {
    var r1 := AdvanceView(r, env, t.info);
    OldInfoStays(r, env, v, t.info);
    assert Handle(r, env, TimeoutArrived(t)) == Cleanup(CollectTimeout(r1, env, t, v), v);
    if |Add(at, t)| < QuorumSize(r.n) {
      TimeoutIsFiled(r1, env, v, others, at, t);
      FiledAlike(r, r1, env, t, v);
    } else {
      if r.useAgg {
        VerifiesMore(r, r1, env, Highest(entry.agg.qcs, env.order(entry.agg)));
      }
      QuorumChanges(r1, env, v, others, at, t, tc, entry);
    }
  }

  /** The same replica, which can look up no less. */
  ghost predicate Alike(r: Replica, r': Replica, env: Env) {
    r'.id == r.id && r'.n == r.n && r'.useAgg == r.useAgg && Sees(r, r', env)
  }

  lemma FiledAlike(r: Replica, r1: Replica, env: Env, t: TimeoutMsg, v: View)
    requires Alike(r, r1, env) && !r1.halted && |AddTimeout(r1, t).timeouts[t.view]| < QuorumSize(r1.n)
    ensures Alike(r, Cleanup(CollectTimeout(r1, env, t, v), v), env)
  {
    var r' := Cleanup(CollectTimeout(r1, env, t, v), v);
    assert r'.blocks == r1.blocks;
    forall h | Avail(r, env, h) ensures Avail(r', env, h) {
      assert Avail(r1, env, h);
    }
  }

  lemma FiledStays(r: Replica, r': Replica, env: Env, v: View)
    requires InView(r, env, v) && r' == r.(timeouts := r'.timeouts)
    ensures InView(r', env, v)
  {
    SameBlocks(r, r', env);
    VerifiesMore(r, r', env, r.highQC);
  }

  // ----- any number of timeouts -----

  ghost predicate AllTimeouts(env: Env, v: View, ts: seq<TimeoutMsg>) {
    forall t :: t in ts ==> Timeout(env, v, t)
  }

  lemma {:induction false} ReceivedSenders(ts: seq<TimeoutMsg>)
    ensures forall id :: id in Received(ts) <==> exists t :: t in ts && t.id == id
    ensures forall id :: id in Received(ts) ==> Received(ts)[id] in ts && Received(ts)[id].id == id
  {
    if ts != [] {
      var rest, t := ts[..|ts| - 1], ts[|ts| - 1];
      ReceivedSenders(rest);
      assert forall x :: x in ts <==> x in rest || x == t;
    }
  }

  lemma ReceivedGrows(ts: seq<TimeoutMsg>)
    requires ts != []
    ensures Received(ts) == Add(Received(ts[..|ts| - 1]), ts[|ts| - 1]) && |Received(ts[..|ts| - 1])| <= |Received(ts)|
  {
    var before, t := Received(ts[..|ts| - 1]), ts[|ts| - 1];
    if t.id !in before {
      assert before[t.id := t].Keys == before.Keys + {t.id};
      assert |before[t.id := t]| == |before[t.id := t].Keys| && |before| == |before.Keys|;
    }
  }

  /** Timeouts of fewer than a quorum: the replica stays in its view, and holds the first one of each sender. */
  lemma {:induction false} FewTimeoutsStay(r: Replica, env: Env, v: View, ts: seq<TimeoutMsg>)
    requires Holds(r, env, v, r.timeouts, map[]) && v > 0
    requires AllTimeouts(env, v, ts) && |Received(ts)| < QuorumSize(r.n)
    ensures var r' := HandleAll(r, env, ts); Holds(r', env, v, r.timeouts, Received(ts)) && Alike(r, r', env)
  {
    if ts == [] {
      SameBlocks(r, r, env);
    } else {
      var rest, t := ts[..|ts| - 1], ts[|ts| - 1];
      ReceivedGrows(ts);
      assert t in ts;
      FewTimeoutsStay(r, env, v, rest);
      var r1 := HandleAll(r, env, rest);
      OneTimeout(r1, env, v, r.timeouts, Received(rest), t, r.highTC, r.entry);
      SeesTrans(r, r1, HandleAll(r, env, ts), env);
    }
  }

  /**
   A quorum's timeouts change the view. For every number of replicas n: once timeouts of view v
   from QuorumSize(n) senders are in, in whatever order and with whatever repeats, and they
   combine to a signature that verifies, a replica in view v enters v + 1, whether or not it
   is to lead there. It does so on that timeout certificate, which is now its highest, or where
   aggregates are used on the aggregate of the QCs that the timeouts carried. Before that it
   stays.
   */
  lemma {:induction false} QuorumTimeoutsChangeView(r: Replica, env: Env, v: View, ts: seq<TimeoutMsg>, tc: TimeoutCert, entry: Entry)
    requires Holds(r, env, v, r.timeouts, map[]) && v > 0 && AllTimeouts(env, v, ts) && ts != []
    requires |Received(ts[..|ts| - 1])| < QuorumSize(r.n) <= |Received(ts)|
    requires Combines(env, r.n, Received(ts), v, tc) && EntryFor(r, env, Received(ts), v, tc, entry)
    ensures Changed(HandleAll(r, env, ts), v, tc, entry, r.timeouts)
  {
    var rest, t := ts[..|ts| - 1], ts[|ts| - 1];
    ReceivedGrows(ts);
    assert t in ts;
    FewTimeoutsStay(r, env, v, rest);
    var r1 := HandleAll(r, env, rest);
    if r.useAgg {
      VerifiesMore(r, r1, env, Highest(entry.agg.qcs, env.order(entry.agg)));
    }
    OneTimeout(r1, env, v, r.timeouts, Received(rest), t, tc, entry);
  }

  // ----- its own timeout, and what is dropped -----

  /** A timeout event drops what was kept of the views before the replica's. */
  lemma OldTimeoutsDropped(r: Replica, env: Env, t: TimeoutMsg, v: View)
    requires !r.halted && v in Handle(r, env, TimeoutArrived(t)).timeouts
    ensures v >= r.view
  {
    assert v in OnRemoteTimeout(r, env, t).timeouts;
  }

  /** A local timeout signs the view and sends it, and the replica knows that it did until it leaves the view. */
  lemma {:induction false} TimesOut(log: set<Sig>, config: set<ID>, r: Replica, env: Env)
    requires RInv(log, config, r) && Sound(log, config, env) && !r.halted && r.lastTimeout != Some(r.view)
    requires env.signs(ViewMsg(r.view)) && (r.useAgg ==> env.signs(TimeoutBytes(r.id, r.view, r.highQC)))
    ensures var r' := Handle(r, env, LocalTimeout(r.view));
      && Signed(ViewMsg(r.view)) in r'.history && SentTimeout(r.view) in r'.history && r'.lastVote >= r.view
      && (r'.view > r.view || r'.lastTimeout == Some(r.view))
  {
    var r2 := SignsTimeout(log, config, r);
    var r3 := NoteTimeout(r2);
    OnRemoteTimeoutOk(log, config, r3, env, OwnTimeout(r2));
    var r' := OnRemoteTimeout(r3, env, OwnTimeout(r2));
    assert Handle(r, env, LocalTimeout(r.view)) == r';
    assert r3.history[|r.history|] == r'.history[|r.history|];
    assert r3.history[|r3.history| - 1] == r'.history[|r3.history| - 1];
  }

  /** What is signed for a local timeout, and noted before it is sent. */
  lemma SignsTimeout(log: set<Sig>, config: set<ID>, r: Replica) returns (r2: Replica)
    requires RInv(log, config, r)
    ensures var r1 := r.(history := r.history + [Signed(ViewMsg(r.view))]);
      r2 == if r.useAgg then r1.(history := r1.history + [Signed(TimeoutBytes(r.id, r.view, r.highQC))]) else r1
    ensures var r3 := NoteTimeout(r2);
      && RInv(log, config, r3) && r3.lastTimeout == Some(r.view) && r3.view == r.view && r3.lastVote >= r.view && |r3.history| > |r.history|
      && r3.history[|r.history|] == Signed(ViewMsg(r.view)) && r3.history[|r3.history| - 1] == SentTimeout(r.view)
  {
    var r1, m := r.(history := r.history + [Signed(ViewMsg(r.view))]), TimeoutBytes(r.id, r.view, r.highQC);
    SignOtherOk(log, config, r, ViewMsg(r.view));
    SignOtherOk(log, config, r1, m);
    r2 := if r.useAgg then r1.(history := r1.history + [Signed(m)]) else r1;
    NoteTimeoutOk(log, config, r2);
  }

  lemma {:induction false} StaysTimedOut(cs: seq<Cluster>, run: seq<Action>, i: nat, j: nat, id: ID)
    requires IsRun(cs, run) && i <= j < |cs| && id in cs[0].replicas
    ensures id in cs[i].replicas && id in cs[j].replicas && cs[i].replicas[id].view <= cs[j].replicas[id].view
    ensures var r, r' := cs[i].replicas[id], cs[j].replicas[id];
      r.lastTimeout == Some(r.view) && r'.view == r.view ==> r'.lastTimeout == r.lastTimeout
  {
    if i < j {
      StaysTimedOut(cs, run, i, j - 1, id);
      ViewsAdvance(cs, run, j - 1, id);
    } else {
      RunOk(cs, run, i);
    }
  }

  lemma Resend(r: Replica, env: Env)
    requires r.lastTimeout == Some(r.view) && !r.halted
    ensures Handle(r, env, LocalTimeout(r.view)) == r.(history := r.history + [SentTimeout(r.view)])
  {
  }

  /** Along any run, once a correct replica has timed out in a view, further local timeouts there send it again and sign nothing. */
  lemma ResendsOnly(cs: seq<Cluster>, run: seq<Action>, i: nat, j: nat, id: ID, env: Env)
    requires IsRun(cs, run) && i <= j < |cs| && id in cs[0].replicas
    ensures id in cs[i].replicas && id in cs[j].replicas
    ensures var r, r' := cs[i].replicas[id], cs[j].replicas[id];
      r.lastTimeout == Some(r.view) && r'.view == r.view && !r'.halted ==>
        Handle(r', env, LocalTimeout(r.view)) == r'.(history := r'.history + [SentTimeout(r.view)])
  {
    StaysTimedOut(cs, run, i, j, id);
    var r, r' := cs[i].replicas[id], cs[j].replicas[id];
    if r.lastTimeout == Some(r.view) && r'.view == r.view && !r'.halted {
      Resend(r', env);
    }
  }
}
