/**
 The executed log of a HotStuff replica: what commit and commitInner of
 consensus/consensus.go run, and in which order, whatever rule picks the
 commits; what the picks owe the log is stated exactly.
 */
module HotStuffLog {
  import opened HotStuffBlocks
  import opened HotStuffReplicas
  import opened HotStuffSafety

  /** The parent-linked path that ends in b, oldest block first. */
  function Lineage(b: Block): (path: seq<Block>)
    ensures path != [] && path[|path| - 1] == b
    decreases b
  {
    if b.parent.HashOf? then Lineage(b.parent.block) + [b] else [b]
  }

  /** No block is on its own path twice. */
  lemma {:induction false} LineageOnce(b: Block)
    ensures forall i :: 0 <= i < |Lineage(b)| ==> |Lineage(Lineage(b)[i])| == i + 1
    ensures forall i, j :: 0 <= i < j < |Lineage(b)| ==> Lineage(b)[i] != Lineage(b)[j]
    decreases b
  {
    if b.parent.HashOf? {
      LineageOnce(b.parent.block);
    }
  }

  /** The first block with view at most v on the way back from b. */
  function Landing(b: Block, v: View): Option<Block>
    decreases b
  {
    if b.view <= v then Some(b)
    else if b.parent.HashOf? then Landing(b.parent.block, v)
    else None
  }

  /** The blocks passed on the way back from b to its landing, oldest first. */
  function Passed(b: Block, v: View): seq<Block>
    decreases b
  {
    if b.view <= v then []
    else if b.parent.HashOf? then Passed(b.parent.block, v) + [b]
    else [b]
  }

  /** b is on the branch of target. */
  ghost predicate Extends(b: Block, target: Block) {
    Landing(b, target.view) == Some(target)
  }

  lemma {:induction false} LineageSplits(b: Block, v: View)
    requires Landing(b, v).Some?
    ensures Lineage(b) == Lineage(Landing(b, v).value) + Passed(b, v)
    decreases b
  {
    if b.view > v {
      LineageSplits(b.parent.block, v);
    }
  }

  /** Extending is being a later block of one path, when views grow along it. */
  lemma {:induction false} ExtendsIsPrefix(b: Block, target: Block)
    requires Extends(b, target)
    ensures Lineage(target) <= Lineage(b)
  {
    LineageSplits(b, target.view);
  }

  /** A commit runs exactly the blocks passed, oldest first, or nothing at all. */
  lemma {:induction false} CommitRuns(r: Replica, env: Env, b: Block)
    requires StoreOk(r.blocks)
    ensures var (r', ok) := CommitInner(r, env, b);
      && StoreOk(r'.blocks)
      && (ok ==> Landing(b, r.exec.view).Some? && r'.executed == r.executed + Passed(b, r.exec.view))
      && (ok ==> r'.exec == if b.view > r.exec.view then b else r.exec)
      && (!ok ==> r'.executed == r.executed && r'.exec == r.exec)
    decreases b
  {
    if r.exec.view < b.view {
      GetKeepsStore(r, env, b.parent);
      match Get(r, env, b.parent)
      case (r1, Some(p)) => CommitRuns(r1, env, p);
      case _ =>
    }
  }

  /** Everything from genesis to the last executed block, once and in order. */
  ghost predicate LogOk(r: Replica) {
    [GENESIS] + r.executed == Lineage(r.exec)
  }

  /** A commit that succeeds and moves the replica keeps the log a path exactly when its target extends the last executed block. */
  lemma CommitKeepsLogIff(r: Replica, env: Env, b: Block)
    requires StoreOk(r.blocks) && LogOk(r) && b.view > r.exec.view && CommitInner(r, env, b).1
    ensures LogOk(Commit(r, env, b)) <==> Extends(b, r.exec)
  {
    CommitRuns(r, env, b);
    var end := Landing(b, r.exec.view).value;
    LineageSplits(b, r.exec.view);
    var r', path := Commit(r, env, b), Passed(b, r.exec.view);
    assert [GENESIS] + r'.executed == Lineage(r.exec) + path;
    if LogOk(r') {
      assert Lineage(r.exec) + path == Lineage(end) + path;
      assert (Lineage(r.exec) + path)[..|Lineage(end)|] == Lineage(r.exec);
      assert (Lineage(end) + path)[..|Lineage(end)|] == Lineage(end);
    }
  }

  /** The blocks a commit rule ever picks lie on one branch that starts at genesis. */
  ghost predicate OneBranch(branch: iset<Block>) {
    && GENESIS in branch
    && forall b, c {:trigger InOrder(b, c)} :: b in branch && c in branch ==> InOrder(b, c)
  }

  ghost predicate InOrder(b: Block, c: Block) {
    c.view <= b.view ==> Extends(b, c)
  }

  /** What a run is judged by: its signatures, its configuration and the branch of its commits. */
  datatype Setting = Setting(log: set<Sig>, config: set<ID>, branch: iset<Block>)

  /** Every commit noted in the history that executed something was of a block of the branch. */
  ghost predicate CommitsIn(history: seq<Act>, branch: iset<Block>) {
    forall b :: Committed(b) in history ==> b in branch
  }

  ghost predicate Obeys(s: Setting, env: Env) {
    OneBranch(s.branch) && Sound(s.log, s.config, env)
  }

  ghost predicate LogInv(s: Setting, r: Replica) {
    RInv(s.log, s.config, r) && LogOk(r) && r.exec in s.branch
  }

  /** The log stays a path of the branch and only grows, if the commits on the way are in the branch. */
  ghost predicate Extended(s: Setting, r: Replica, r': Replica) {
    CommitsIn(r'.history, s.branch) ==> LogInv(s, r') && r.executed <= r'.executed
  }

  lemma SameLog(s: Setting, r: Replica, r': Replica)
    requires LogInv(s, r) && RInv(s.log, s.config, r') && r'.exec == r.exec && r'.executed == r.executed
    ensures Extended(s, r, r')
  {
  }

  /** A later step extends an earlier one, since histories only grow. */
  lemma ExtendedTrans(s: Setting, r: Replica, r1: Replica, r2: Replica)
    requires Extended(s, r, r1) && r1.history <= r2.history && (LogInv(s, r1) ==> Extended(s, r1, r2))
    ensures Extended(s, r, r2)
  {
    if CommitsIn(r2.history, s.branch) {
      assert CommitsIn(r1.history, s.branch);
    }
  }

  lemma CommitLog(s: Setting, r: Replica, env: Env, b: Block)
    requires OneBranch(s.branch) && LogInv(s, r)
    ensures Extended(s, r, Commit(r, env, b))
  {
    CommitRuns(r, env, b);
    var r' := Commit(r, env, b);
    CommitOk(s.log, s.config, r, env, b);
    if b.view > r.exec.view && CommitInner(r, env, b).1 && CommitsIn(r'.history, s.branch) {
      assert r'.history[|r.history|] == Committed(b);
      assert InOrder(b, r.exec);
      CommitKeepsLogIff(r, env, b);
    }
  }

  lemma StoreAndCommitLog(s: Setting, r: Replica, env: Env, b: Block)
    requires LogInv(s, r) && OneBranch(s.branch)
    ensures Extended(s, r, StoreAndCommit(r, env, b))
  {
    var r1 := r.(blocks := r.blocks[HashOf(b) := b]);
    CommitRuleKeepsStore(r1, env, b);
    var (r2, c) := CommitRule(r1, env, b);
    Frame(s.log, s.config, r, r2);
    SameLog(s, r, r2);
    if c.Some? {
      CommitLog(s, r2, env, c.value);
    }
  }

  lemma {:induction false} ProposeLog(s: Setting, r: Replica, env: Env, si: SyncInfo)
    requires LogInv(s, r) && Obeys(s, env)
    ensures Extended(s, r, Propose(r, env, si))
    decreases Ahead(r, CertOf(si)), 4
  {
    if si.qc.Some? {
      GetKeepsStore(r, env, si.qc.value.hash);
    }
    var (r1, _) := if si.qc.Some? then Get(r, env, si.qc.value.hash) else (r, None);
    var b := NewBlock(r1, env, si);
    var r2 := r1.(blocks := r1.blocks[HashOf(b) := b]);
    Frame(s.log, s.config, r, r2);
    OnProposeLog(s, r2, env, Proposal(r.id, b, if r.useAgg then si.agg else None));
  }

  lemma {:induction false} OnProposeLog(s: Setting, r: Replica, env: Env, p: Proposal)
    requires LogInv(s, r) && Obeys(s, env)
    ensures Extended(s, r, OnPropose(r, env, p))
    decreases Ahead(r, p.block.cert), 3
  {
    if !r.halted {
      var (r1, ok) := Examine(r, env, p);
      ExamineOk(s.log, s.config, r, env, p);
      SameLog(s, r, r1);
      if ok {
        TakeLog(s, r1, env, p.block);
        TakeOk(s.log, s.config, r1, env, p.block);
        ExtendedTrans(s, r, r1, Take(r1, env, p.block));
      }
    }
  }

  lemma {:induction false} TakeLog(s: Setting, r: Replica, env: Env, b: Block)
    requires LogInv(s, r) && Obeys(s, env)
    ensures Extended(s, r, Take(r, env, b))
    decreases Ahead(r, b.cert), 2
  {
    var r1 := StoreAndCommit(r, env, b);
    StoreAndCommitOk(s.log, s.config, r, env, b);
    StoreAndCommitLog(s, r, env, b);
    CheckFrame(r1, env, JustQC(b.cert));
    AdvanceViewOk(s.log, s.config, r1, env, JustQC(b.cert));
    if LogInv(s, r1) {
      AdvanceViewLog(s, r1, env, JustQC(b.cert));
    }
    VoteLog(s, r, r1, AdvanceView(r1, env, JustQC(b.cert)), env, b);
  }

  lemma VoteLog(s: Setting, r: Replica, r1: Replica, r2: Replica, env: Env, b: Block)
    requires Extended(s, r, r1) && Ok(s.log, s.config, r1, r2) && (LogInv(s, r1) ==> Extended(s, r1, r2))
    ensures Extended(s, r, CastVote(r2, env, b))
  {
    ExtendedTrans(s, r, r1, r2);
    CastVoteOk(s.log, s.config, r2, env, b);
    if LogInv(s, r2) {
      SameLog(s, r2, CastVote(r2, env, b));
    }
    ExtendedTrans(s, r, r2, CastVote(r2, env, b));
  }

  lemma CheckLog(s: Setting, r: Replica, env: Env, si: SyncInfo)
    requires LogInv(s, r) && Obeys(s, env)
    ensures LogInv(s, Check(r, env, si).r) && Check(r, env, si).r.executed == r.executed
    ensures Check(r, env, si).r.history == r.history
  {
    CheckFrame(r, env, si);
    CheckSound(s.log, s.config, r, env, si);
  }

  lemma {:induction false} AdvanceViewLog(s: Setting, r: Replica, env: Env, si: SyncInfo)
    requires LogInv(s, r) && Obeys(s, env)
    ensures Extended(s, r, AdvanceView(r, env, si))
    decreases Moves(r, env, si), 1
  {
    if !r.halted {
      CheckFrame(r, env, si);
      CheckLog(s, r, env, si);
      CheckSound(s.log, s.config, r, env, si);
      match Check(r, env, si)
      case Rejected(r1) =>
      case Accepted(r1, info, v, entry) => EnterLog(s, r1, env, info, v, entry);
    }
  }

  lemma {:induction false} EnterLog(s: Setting, r: Replica, env: Env, info: SyncInfo, v: View, entry: Entry)
    requires LogInv(s, r) && Obeys(s, env) && CertOf(info).view <= v && CheckedOk(s.log, s.config, v, entry)
    ensures Extended(s, r, Enter(r, env, info, v, entry))
    decreases if v >= r.view then 1 else 0, 0
  {
    if !r.halted && v >= r.view {
      EnterViewOk(s.log, s.config, r, v, entry);
      if env.leader(v + 1) == r.id {
        ProposeLog(s, EnterView(r, v, entry), env, info);
      }
    }
  }

  lemma CollectTimeoutLog(s: Setting, r: Replica, env: Env, t: TimeoutMsg, current: View)
    requires LogInv(s, r) && Obeys(s, env)
    ensures Extended(s, r, CollectTimeout(r, env, t, current))
  {
    var r1 := AddTimeout(r, t);
    Frame(s.log, s.config, r, r1);
    SameLog(s, r, r1);
    var at := r1.timeouts[t.view];
    if CreateTC(env, at, t.view).Some? {
      var r2 := r1.(timeouts := r1.timeouts - {t.view});
      Frame(s.log, s.config, r, r2);
      AdvanceViewLog(s, r2, env, TimeoutInfo(r1, env, at, CreateTC(env, at, t.view).value, current));
    }
  }

  lemma RemoteTimeoutLog(s: Setting, r: Replica, env: Env, t: TimeoutMsg)
    requires LogInv(s, r) && Obeys(s, env)
    ensures Extended(s, r, OnRemoteTimeout(r, env, t))
  {
    Frame(s.log, s.config, r, Cleanup(r, r.view));
    SameLog(s, r, Cleanup(r, r.view));
    if !r.halted && env.verify(t.viewSig, ViewMsg(t.view)) {
      var r1 := AdvanceView(r, env, t.info);
      var r2 := CollectTimeout(r1, env, t, r.view);
      AdvanceViewLog(s, r, env, t.info);
      AdvanceViewOk(s.log, s.config, r, env, t.info);
      CollectTimeoutOk(s.log, s.config, r1, env, t, r.view);
      if LogInv(s, r1) {
        CollectTimeoutLog(s, r1, env, t, r.view);
      }
      ExtendedTrans(s, r, r1, r2);
    }
  }

  lemma SendTimeoutLog(s: Setting, r: Replica, env: Env)
    requires LogInv(s, r) && Obeys(s, env)
    ensures Extended(s, r, SendTimeout(r, env))
  {
    var r1 := NoteTimeout(r);
    NoteTimeoutLog(s, r);
    RemoteTimeoutLog(s, r1, env, OwnTimeout(r));
  }

  lemma NoteTimeoutLog(s: Setting, r: Replica)
    requires LogInv(s, r)
    ensures LogInv(s, NoteTimeout(r)) && NoteTimeout(r).executed == r.executed
  {
    NoteTimeoutOk(s.log, s.config, r);
  }

  lemma LocalTimeoutLog(s: Setting, r: Replica, env: Env)
    requires LogInv(s, r) && Obeys(s, env) && Settled(r)
    ensures Extended(s, r, OnLocalTimeout(r, env))
  {
    LocalTimeoutOk(s.log, s.config, r, env);
    if !r.halted && r.lastTimeout != Some(r.view) && env.signs(ViewMsg(r.view)) {
      var r1 := r.(history := r.history + [Signed(ViewMsg(r.view))]);
      SignOtherOk(s.log, s.config, r, ViewMsg(r.view));
      if r.useAgg {
        var m := TimeoutBytes(r.id, r.view, r.highQC);
        SignOtherOk(s.log, s.config, r1, m);
        SendTimeoutLog(s, r1.(history := r1.history + [Signed(m)]), env);
      } else {
        SendTimeoutLog(s, r1, env);
      }
    }
  }

  lemma HandleLog(s: Setting, r: Replica, env: Env, e: Event)
    requires LogInv(s, r) && Obeys(s, env) && Settled(r)
    ensures Extended(s, r, Handle(r, env, e))
  {
    match e
    case ProposalArrived(p) => OnProposeLog(s, r, env, p);
    case NewViewArrived(info) => AdvanceViewLog(s, r, env, info);
    case TimeoutArrived(t) => RemoteTimeoutLog(s, r, env, t);
    case LocalTimeout(view) => LocalTimeoutLog(s, r, env);
    case StartProposing => ProposeLog(s, r, env, SyncInfo(Some(r.highQC), Some(r.highTC), None));
  }

  // ----- runs -----

  ghost predicate ReplicaLog(s: Setting, c: Cluster, id: ID)
    requires id in c.replicas
  {
    LogInv(s, c.replicas[id])
  }

  ghost predicate LogsOk(s: Setting, c: Cluster) {
    forall id {:trigger ReplicaLog(s, c, id)} :: id in c.replicas ==> ReplicaLog(s, c, id)
  }

  ghost predicate CommitsOk(c: Cluster, branch: iset<Block>) {
    forall id :: id in c.replicas ==> CommitsIn(c.replicas[id].history, branch)
  }

  lemma ApplyLogs(s: Setting, c: Cluster, a: Action)
    requires LogsOk(s, c) && ClusterOk(c) && CommitsOk(Apply(c, a), s.branch) && (a.ReplicaHandles? ==> Obeys(s, a.env))
    ensures LogsOk(s, Apply(c, a))
  {
    forall id | id in Apply(c, a).replicas ensures ReplicaLog(s, Apply(c, a), id) {
      assert ReplicaLog(s, c, id) && ReplicaOk(c, id);
      if a.ReplicaHandles? && a.id == id {
        HandleLog(s, c.replicas[id], a.env, a.e);
      }
    }
  }

  lemma StartLogs(s: Setting, c: Cluster)
    requires OneBranch(s.branch) && Start(c) && c.config == s.config
    ensures LogsOk(s, c)
  {
    forall id | id in c.replicas ensures ReplicaLog(s, c, id) {
      assert c.replicas[id] == InitialReplica(id, |c.config|, c.replicas[id].useAgg, c.replicas[id].chained);
    }
  }

  /** What verifies for good reason keeps doing so as more is signed. */
  lemma SoundStays(log: set<Sig>, log': set<Sig>, config: set<ID>, env: Env)
    requires log <= log' && Sound(log, config, env)
    ensures Sound(log', config, env)
  {
    forall sig, m ensures SigSound(log', config, env, sig, m) {
      assert SigSound(log, config, env, sig, m);
    }
    forall sig, batch ensures BatchSound(log', config, env, sig, batch) {
      assert BatchSound(log, config, env, sig, batch);
    }
  }

  lemma StepSound(cs: seq<Cluster>, run: seq<Action>, i: nat)
    requires IsRun(cs, run) && i < |run| && run[i].ReplicaHandles?
    ensures Sound(cs[|run|].log, cs[0].config, run[i].env)
  {
    assert StepAt(cs, run, i);
    RunOk(cs, run, i);
    LogGrows(cs, run, i + 1, |run|);
    SoundStays(cs[i + 1].log, cs[|run|].log, cs[0].config, run[i].env);
  }

  /** What a replica did stays done. */
  lemma {:induction false} HistoryGrows(cs: seq<Cluster>, run: seq<Action>, i: nat, j: nat, id: ID)
    requires IsRun(cs, run) && i <= j < |cs| && id in cs[0].replicas
    ensures id in cs[i].replicas && id in cs[j].replicas && cs[i].replicas[id].history <= cs[j].replicas[id].history
  {
    RunOk(cs, run, i);
    if i < j {
      HistoryGrows(cs, run, i, j - 1, id);
      StepHistory(cs, run, j - 1, id);
    }
  }

  lemma StepHistory(cs: seq<Cluster>, run: seq<Action>, j: nat, id: ID)
    requires IsRun(cs, run) && j < |run| && id in cs[0].replicas
    ensures id in cs[j].replicas && id in cs[j + 1].replicas && cs[j].replicas[id].history <= cs[j + 1].replicas[id].history
  {
    ViewsAdvance(cs, run, j, id);
  }

  lemma CommitsOkBefore(cs: seq<Cluster>, run: seq<Action>, i: nat, branch: iset<Block>)
    requires IsRun(cs, run) && i < |cs| && CommitsOk(cs[|run|], branch)
    ensures CommitsOk(cs[i], branch)
  {
    RunOk(cs, run, i);
    RunOk(cs, run, |run|);
    forall id | id in cs[i].replicas ensures CommitsIn(cs[i].replicas[id].history, branch) {
      HistoryGrows(cs, run, i, |run|, id);
      assert CommitsIn(cs[|run|].replicas[id].history, branch);
    }
  }

  /** The setting of a whole run. */
  ghost predicate Governs(s: Setting, cs: seq<Cluster>, run: seq<Action>)
    requires |cs| == |run| + 1
  {
    && OneBranch(s.branch) && CommitsOk(cs[|run|], s.branch)
    && s.log == cs[|run|].log && s.config == cs[0].config
  }

  lemma {:induction false} RunLogs(s: Setting, cs: seq<Cluster>, run: seq<Action>, i: nat)
    requires IsRun(cs, run) && Governs(s, cs, run) && i < |cs|
    ensures LogsOk(s, cs[i])
  {
    if i == 0 {
      StartLogs(s, cs[0]);
    } else {
      RunLogs(s, cs, run, i - 1);
      StepLogs(s, cs, run, i - 1);
    }
  }

  lemma StepLogs(s: Setting, cs: seq<Cluster>, run: seq<Action>, i: nat)
    requires IsRun(cs, run) && Governs(s, cs, run) && i < |run| && LogsOk(s, cs[i])
    ensures LogsOk(s, cs[i + 1])
  {
    RunOk(cs, run, i);
    CommitsOkBefore(cs, run, i + 1, s.branch);
    assert StepAt(cs, run, i);
    if run[i].ReplicaHandles? {
      StepSound(cs, run, i);
    }
    ApplyLogs(s, cs[i], run[i]);
  }

  /**
   Executed log. Along any run whose commits are all of blocks of one branch, each
   replica has executed exactly the parent-linked path from genesis to its last
   executed block, each block once and in order; and of what any two replicas have
   executed, each at any time, one is a prefix of the other.
   */
  lemma ExecutedLogsAgree(branch: iset<Block>, cs: seq<Cluster>, run: seq<Action>, i: nat, id1: ID, j: nat, id2: ID)
    requires IsRun(cs, run) && OneBranch(branch) && CommitsOk(cs[|run|], branch) && i < |cs| && j < |cs|
    requires id1 in cs[0].replicas && id2 in cs[0].replicas
    ensures id1 in cs[i].replicas && id2 in cs[j].replicas
    ensures var r1, r2 := cs[i].replicas[id1], cs[j].replicas[id2];
      LogOk(r1) && LogOk(r2) && (r1.executed <= r2.executed || r2.executed <= r1.executed)
  {
    var s := Setting(cs[|run|].log, cs[0].config, branch);
    RunOk(cs, run, i);
    RunOk(cs, run, j);
    RunLogs(s, cs, run, i);
    RunLogs(s, cs, run, j);
    assert ReplicaLog(s, cs[i], id1) && ReplicaLog(s, cs[j], id2);
    var r1, r2 := cs[i].replicas[id1], cs[j].replicas[id2];
    assert InOrder(r1.exec, r2.exec) && InOrder(r2.exec, r1.exec);
    if r1.exec.view <= r2.exec.view {
      PrefixLogs(r1, r2);
    } else {
      PrefixLogs(r2, r1);
    }
  }

  lemma PrefixLogs(r1: Replica, r2: Replica)
    requires LogOk(r1) && LogOk(r2) && Extends(r2.exec, r1.exec)
    ensures r1.executed <= r2.executed
  {
    ExtendsIsPrefix(r2.exec, r1.exec);
    assert r1.executed == ([GENESIS] + r1.executed)[1..] && r2.executed == ([GENESIS] + r2.executed)[1..];
  }
}
