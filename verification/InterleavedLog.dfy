/** The message log under every interleaving: immutable contents, and paging that holds up
    while requests overlap. */
module InterleavedLog {
  import opened Domain
  import opened MessageLog
  import opened Interleaved
  import opened InterleavedSafety

  lemma StepGrowsLog(cfg: Config, s: State, a: Action)
    requires LogOk(s.m) && Enabled(cfg, s, a)
    ensures Grew(s.m, Apply(cfg, s, a).m)
  {
    if a.Call? { StmtGrowsLog(s.m, s.now, MoveOf(s, s.procs[a.pid], a.ok).stmt); }
  }

  lemma StmtGrowsLog(m: MessageTable, now: Time, stmt: Stmt)
    requires LogOk(m)
    ensures Grew(m, LogAfter(m, now, stmt))
  {
    match stmt
    case AppendMessage(msg) => StatementsGrow(m, msg, now, 0, 0);
    case _ =>
  }

  // Ids, senders, rooms and contents never change, a recalled message stays recalled, and
  // later messages carry greater ids.
  lemma {:induction false} BehaviourGrows(cfg: Config, b: seq<State>, acts: seq<Action>, i: nat, j: nat)
    requires Behaviour(cfg, b, acts) && i <= j < |b|
    ensures LogOk(b[i].m) && Grew(b[i].m, b[j].m)
    decreases j
  {
    LogStaysOk(cfg, b, acts, i);
    if i == j {
      GrewReflexive(b[i].m);
    } else {
      var k := j - 1;
      BehaviourGrows(cfg, b, acts, i, k);
      NextGrows(cfg, b, acts, k);
      GrewTransitive(b[i].m, b[k].m, b[k + 1].m);
    }
  }

  lemma LogStaysOk(cfg: Config, b: seq<State>, acts: seq<Action>, i: nat)
    requires Behaviour(cfg, b, acts) && i < |b|
    ensures LogOk(b[i].m)
  {
    BehaviourSafe(cfg, b, acts, i);
  }

  lemma NextGrows(cfg: Config, b: seq<State>, acts: seq<Action>, i: nat)
    requires Behaviour(cfg, b, acts) && i < |acts|
    ensures Grew(b[i].m, b[i + 1].m)
  {
    BehaviourSafe(cfg, b, acts, i);
    assert Leads(cfg, b[i], acts[i], b[i + 1]);
    StepGrowsLog(cfg, b[i], acts[i]);
  }

  // The log at the states when[0], when[1], ... of a behaviour.
  ghost function LogsAt(b: seq<State>, when: seq<nat>): (logs: seq<MessageTable>)
    requires forall k :: 0 <= k < |when| ==> when[k] < |b|
    ensures |logs| == |when|
  {
    seq(|when|, k requires 0 <= k < |when| => b[when[k]].m)
  }

  // A client reading a room's history, page k in state when[k], gets exactly the messages the
  // room had at the first, newest first.
  lemma WalkDuringBehaviour(cfg: Config, b: seq<State>, acts: seq<Action>, when: seq<nat>,
                            room: RoomId, n: nat, pages: seq<seq<Message>>)
    requires Behaviour(cfg, b, acts) && 0 < n && |when| > 0
    requires forall i, j :: 0 <= i <= j < |when| ==> when[i] <= when[j] < |b|
    requires ReadToEnd(LogsAt(b, when), room, n, pages)
    ensures var read, start := Concat(IdLists(pages)), b[when[0]].m;
            && StrictlyDown(read) && |pages| == |read| / n + 1
            && forall id :: id in read <==> id in start.rows && start.rows[id].room == room
  {
    var logs := LogsAt(b, when);
    forall i | 0 <= i < |logs| ensures LogOk(logs[i]) {
      BehaviourGrows(cfg, b, acts, when[i], when[i]);
    }
    forall i, j | 0 <= i < j < |logs| ensures Grew(logs[i], logs[j]) {
      BehaviourGrows(cfg, b, acts, when[i], when[j]);
    }
    ReadIsComplete(logs, room, n, pages);
  }
}
