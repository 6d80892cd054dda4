/** Which stored versions the consumed events left: one for every event, under every projection key. */
module OnceLaws {
  import opened Domain
  import opened ProjectionStore
  import opened Pipeline
  import opened PipelineLaws
  import opened RoomLaws
  import opened Runs

  /** The first version of a replay's own epoch is rebuilt from history; every other version consumed an event. */
  predicate Rebuilt(k: VersionKey) { k.0.ReplayEpoch? && k.1 == 1 }

  ghost predicate Consumes(r: KeyRows, k: VersionKey, s: int) {
    k in r.snapshots && !Rebuilt(k) && r.snapshots[k].completeThrough == s
  }

  ghost predicate ConsumedOnce(r: KeyRows, s: int) {
    && (exists k :: Consumes(r, k, s))
    && (forall j, k :: Consumes(r, j, s) && Consumes(r, k, s) ==> j == k)
  }

  ghost predicate EachOnce(t: Tables) {
    AllKeys(t) && forall key: ProjectionKey, s :: 1 <= s <= t.checkpoint ==> ConsumedOnce(t.rows[key], s)
  }

  /** One more version, and nothing else. */
  ghost predicate Gains(r: KeyRows, k: VersionKey, r': KeyRows) {
    Extends(r, r') && r'.snapshots.Keys == r.snapshots.Keys + {k}
  }

  lemma GainedConsumes(r: KeyRows, k: VersionKey, r': KeyRows, j: VersionKey, s: int)
    requires Gains(r, k, r') && j != k
    ensures Consumes(r', j, s) <==> Consumes(r, j, s)
  {
  }

  /** A rebuilt version consumes nothing. */
  lemma RebuildKeepsOnce(r: KeyRows, k: VersionKey, r': KeyRows, s: int)
    requires Gains(r, k, r') && Rebuilt(k) && ConsumedOnce(r, s)
    ensures ConsumedOnce(r', s)
  {
    forall j ensures Consumes(r', j, s) <==> Consumes(r, j, s) {
      if j != k { GainedConsumes(r, k, r', j, s); }
    }
    var j :| Consumes(r, j, s);
    assert Consumes(r', j, s);
  }

  /** A version for the next event is the only one for it, and leaves the earlier events' as they were. */
  lemma ConsumeKeepsOnce(r: KeyRows, k: VersionKey, r': KeyRows, through: int, s: int)
    requires Gains(r, k, r') && !Rebuilt(k) && k !in r.snapshots && r'.snapshots[k].completeThrough == through
    requires forall j :: j in r.snapshots ==> r.snapshots[j].completeThrough < through
    requires s < through ==> ConsumedOnce(r, s)
    requires s <= through
    ensures ConsumedOnce(r', s)
  {
    forall j | j != k ensures Consumes(r', j, s) <==> Consumes(r, j, s) { GainedConsumes(r, k, r', j, s); }
    if s == through {
      assert Consumes(r', k, s);
    } else {
      var j :| Consumes(r, j, s);
      assert Consumes(r', j, s);
    }
  }

  /** The version a consume adds: the head's, in the epoch it wrote to. */
  lemma ConsumeGains(room: string, t: Tables, b: Build, roomSeq: nat, x: Inputs, t': Tables, key: ProjectionKey)
    returns (k: VersionKey)
    requires Invariant(t) && roomSeq > t.checkpoint && Consumed(room, t, b, roomSeq, x) == Ok(t')
    ensures Invariant(t') && Gains(t.rows[key], k, t'.rows[key]) && !Rebuilt(k)
    ensures k !in t.rows[key].snapshots && t'.rows[key].snapshots[k].completeThrough == t'.checkpoint
  {
    ConsumeKeeps(room, t, b, roomSeq, x, t');
    var epoch := CurrentEpoch(t, b).value;
    NotRebuilt(t, b, epoch);
    k := VersionGained(t, b, epoch, t', key);
  }

  lemma VersionGained(t: Tables, b: Build, epoch: Epoch, t': Tables, key: ProjectionKey) returns (k: VersionKey)
    requires Invariant(t) && Invariant(t') && Grows(t, t') && t.checkpoint < t'.checkpoint
    requires Installed(t', b, epoch) && AddsVersion(t, epoch, t')
    ensures k == (epoch, NextVersion(t.rows[EchoTeacher], epoch)) && Gains(t.rows[key], k, t'.rows[key])
    ensures k !in t.rows[key].snapshots && t'.rows[key].snapshots[k].completeThrough == t'.checkpoint
  {
    k := (epoch, NextVersion(t.rows[EchoTeacher], epoch));
    assert t.rows[key].snapshots.Keys == t.rows[EchoTeacher].snapshots.Keys;
    assert t'.rows[key].snapshots.Keys == t'.rows[EchoTeacher].snapshots.Keys;
    var j := HeadRow(t', key);
    BehindCheckpoint(t, key);
    HeadIsGained(t.rows[key], k, t'.rows[key], j, t.checkpoint, t'.checkpoint);
  }

  lemma HeadIsGained(r: KeyRows, k: VersionKey, r': KeyRows, j: VersionKey, checkpoint: int, through: int)
    requires Gains(r, k, r') && checkpoint < through && j in r'.snapshots && r'.snapshots[j].completeThrough == through
    requires forall i :: i in r.snapshots ==> r.snapshots[i].completeThrough <= checkpoint
    ensures j == k && k !in r.snapshots
  {
  }

  lemma HeadRow(t: Tables, key: ProjectionKey) returns (k: VersionKey)
    requires Invariant(t) && t.checkpoint > 0
    ensures k in t.rows[key].snapshots && t.rows[key].snapshots[k].completeThrough == t.checkpoint
  {
    assert KeyInvariant(key, t.rows[key], t.checkpoint);
    var h := t.rows[key].head.value;
    k := (h.epoch, h.version);
  }

  lemma BehindCheckpoint(t: Tables, key: ProjectionKey)
    requires Invariant(t)
    ensures forall k :: k in t.rows[key].snapshots ==> 1 <= t.rows[key].snapshots[k].completeThrough <= t.checkpoint
  {
    assert KeyInvariant(key, t.rows[key], t.checkpoint);
    forall k | k in t.rows[key].snapshots ensures 1 <= t.rows[key].snapshots[k].completeThrough <= t.checkpoint {
      assert RowDescribes(key, k, t.rows[key].snapshots[k], t.checkpoint);
    }
  }

  /** A consume never writes version 1 of a replay epoch. */
  lemma NotRebuilt(t: Tables, b: Build, epoch: Epoch)
    requires Invariant(t) && CurrentEpoch(t, b) == Ok(epoch)
    ensures !Rebuilt((epoch, NextVersion(t.rows[EchoTeacher], epoch)))
  {
    CurrentEpochDefined(t, b);
    assert KeyInvariant(EchoTeacher, t.rows[EchoTeacher], t.checkpoint);
    if t.checkpoint > 0 && OneBuild(t, b) {
      var h := t.rows[EchoTeacher].head.value;
      assert RowDescribes(EchoTeacher, (h.epoch, h.version), t.rows[EchoTeacher].snapshots[(h.epoch, h.version)], t.checkpoint);
    }
  }

  /** A replay that writes adds the first version of its own epoch. */
  lemma ReplayGains(room: string, t: Tables, b: Build, jobId: nat, requested: nat, x: Inputs, t': Tables, key: ProjectionKey)
    requires Invariant(t) && Replayed(room, t, b, jobId, requested, x) == Ok(t')
    ensures AllKeys(t') && (t' == t || Gains(t.rows[key], (ReplayEpoch(jobId), 1), t'.rows[key]))
  {
    ReplayKeeps(room, t, b, jobId, requested, x, t');
    if !AlreadyReplayed(t, ReplayEpoch(jobId)) {
      ReplayTargets(t, b, jobId);
      MaterializedKeeps(room, t, b, ReplayEpoch(jobId), t.checkpoint, x, false, t');
    }
  }

  lemma NextEventOnce(t: Tables, key: ProjectionKey, k: VersionKey, t': Tables, s: int)
    requires Invariant(t) && EachOnce(t) && AllKeys(t') && t'.checkpoint == t.checkpoint + 1 && 1 <= s <= t'.checkpoint
    requires Gains(t.rows[key], k, t'.rows[key]) && !Rebuilt(k)
    requires k !in t.rows[key].snapshots && t'.rows[key].snapshots[k].completeThrough == t'.checkpoint
    ensures ConsumedOnce(t'.rows[key], s)
  {
    BehindCheckpoint(t, key);
    ConsumeKeepsOnce(t.rows[key], k, t'.rows[key], t'.checkpoint, s);
  }

  lemma ConsumeKeepsEach(room: string, t: Tables, b: Build, roomSeq: nat, x: Inputs, t': Tables)
    requires Invariant(t) && EachOnce(t) && Consumed(room, t, b, roomSeq, x) == Ok(t')
    ensures EachOnce(t')
  {
    ConsumeKeeps(room, t, b, roomSeq, x, t');
    if roomSeq > t.checkpoint {
      forall key: ProjectionKey, s | 1 <= s <= t'.checkpoint ensures ConsumedOnce(t'.rows[key], s) {
        var k := ConsumeGains(room, t, b, roomSeq, x, t', key);
        NextEventOnce(t, key, k, t', s);
      }
    }
  }

  lemma ReplayKeepsEach(room: string, t: Tables, b: Build, jobId: nat, requested: nat, x: Inputs, t': Tables)
    requires Invariant(t) && EachOnce(t) && Replayed(room, t, b, jobId, requested, x) == Ok(t')
    ensures EachOnce(t')
  {
    ReplayKeeps(room, t, b, jobId, requested, x, t');
    forall key: ProjectionKey, s | 1 <= s <= t'.checkpoint ensures ConsumedOnce(t'.rows[key], s) {
      ReplayGains(room, t, b, jobId, requested, x, t', key);
      if t' != t { RebuildKeepsOnce(t.rows[key], (ReplayEpoch(jobId), 1), t'.rows[key], s); }
    }
  }

  lemma NextKeepsEach(room: string, t: Tables, op: Op)
    requires Invariant(t) && EachOnce(t)
    ensures Invariant(NextOf(room)(t, op)) && EachOnce(NextOf(room)(t, op))
  {
    OutcomeKeeps(room, t, op);
    match op
    case Consume(b, n, x) => if Consumed(room, t, b, n, x).Ok? { ConsumeKeepsEach(room, t, b, n, x, Consumed(room, t, b, n, x).value); }
    case Replay(b, j, n, x) => if Replayed(room, t, b, j, n, x).Ok? { ReplayKeepsEach(room, t, b, j, n, x, Replayed(room, t, b, j, n, x).value); }
  }

  /** In every run, each event up to the checkpoint has been consumed into exactly one stored version of each key. */
  lemma {:induction false} EveryEventOnce(room: string, ops: seq<Op>, key: ProjectionKey, s: int)
    requires 1 <= s <= After(room, ops).checkpoint
    ensures AllKeys(After(room, ops)) && ConsumedOnce(After(room, ops).rows[key], s)
  {
    EmptyInvariant();
    forall t, op | Invariant(t) && EachOnce(t) ensures Invariant(NextOf(room)(t, op)) && EachOnce(NextOf(room)(t, op)) {
      NextKeepsEach(room, t, op);
    }
    Invariance(NextOf(room), t => Invariant(t) && EachOnce(t), EMPTY_TABLES, ops);
  }
}
