/** Snapshots of the game: a connection reads the version, then shares or starts a read of the data.
    Commands commit before they bump the version, so a snapshot is never older than its stamp. */
module SnapshotReads {
  import opened Results

  type Commit = nat
  type Reader = nat
  type ReadId = nat

  // One read of the data in flight: the version it was started at and what had been committed by
  // then; when it is over, what it found.
  datatype Read = Read(version: nat, begun: set<Commit>, found: Option<set<Commit>>)
  // How far a connection has come.
  datatype Progress = HasVersion(version: nat) | Awaits(version: nat, read: ReadId)
  datatype Snapshot = Snapshot(version: nat, details: set<Commit>)

  datatype Game = Game(
    committed: set<Commit>, version: nat, numbered: map<nat, Commit>,
    unnumbered: Option<Commit>,                       // committed by the running slot, not yet numbered
    running: map<ReadId, Read>, shared: Option<ReadId>, readers: map<Reader, Progress>, snapshots: seq<Snapshot>)

  datatype Event =
    | Write(commit: Commit)              // the running slot's durable batch
    | Bump                               // the version follows the batch
    | Abandon                            // the slot ends without a bump
    | ReadVersion(reader: Reader)
    | Share(reader: Reader, newRead: ReadId)
    | Finish(read: ReadId, found: set<Commit>)
    | Deliver(reader: Reader)
    | Crash

  function OnShare(g: Game, reader: Reader, newRead: ReadId): Game
    requires reader in g.readers && g.readers[reader].HasVersion?
  {
    var v := g.readers[reader].version;
    if g.shared.Some? && g.shared.value in g.running && g.running[g.shared.value].version == v then
      g.(readers := g.readers[reader := Awaits(v, g.shared.value)])
    else if newRead in g.running then g
    else
      g.(running := g.running[newRead := Read(v, g.committed, None)], shared := Some(newRead),
          readers := g.readers[reader := Awaits(v, newRead)])
  }

  // An event that cannot happen now changes nothing. A read finds at least what was committed when
  // it began, and nothing that was never committed.
  function Next(g: Game, e: Event): Game {
    match e
    case Write(c) => if g.unnumbered.None? then g.(committed := g.committed + {c}, unnumbered := Some(c)) else g
    case Bump =>
      if g.unnumbered.Some? then g.(version := g.version + 1,
          numbered := g.numbered[g.version + 1 := g.unnumbered.value], unnumbered := None) else g
    case Abandon => g.(unnumbered := None)
    case ReadVersion(reader) => if reader !in g.readers then g.(readers := g.readers[reader := HasVersion(g.version)])
                                else g
    case Share(reader, newRead) => if reader in g.readers &&
        g.readers[reader].HasVersion? then OnShare(g, reader, newRead) else g
    case Finish(read, found) =>
      if read in g.running && g.running[read].found.None? && g.running[read].begun <= found <= g.committed
      then g.(running := g.running[read := g.running[read].(found := Some(found))], shared := if g.shared == Some(read)
          then None else g.shared)
      else g
    case Deliver(reader) =>
      if reader in g.readers && g.readers[reader].Awaits? && g.readers[reader].read in g.running &&
          g.running[g.readers[reader].read].found.Some?
      then g.(readers := g.readers - {reader},
          snapshots := g.snapshots + [Snapshot(g.readers[reader].version,
          g.running[g.readers[reader].read].found.value)])
      else g
    case Crash => g.(unnumbered := None, running := map[], shared := None, readers := map[])
  }
  function After(g: Game, events: seq<Event>): Game
    decreases |events|
  {
    if events == [] then g else After(Next(g, events[0]), events[1..])
  }

  // Every commit numbered up to the version is among these.
  ghost predicate Covers(g: Game, version: nat, commits: set<Commit>) {
    forall u :: u in g.numbered && u <= version ==> g.numbered[u] in commits
  }
  ghost predicate ReadSound(g: Game, id: ReadId)
    requires id in g.running
  {
    var r := g.running[id];
    r.version <= g.version && Covers(g, r.version, r.begun) && (r.found.Some? ==> r.begun <= r.found.value)
  }
  ghost predicate ReaderSound(g: Game, reader: Reader)
    requires reader in g.readers
  {
    match g.readers[reader]
    case HasVersion(v) => v <= g.version
    case Awaits(v, read) => read in g.running && g.running[read].version == v
  }
  ghost predicate Sound(g: Game) {
    && (forall u :: u in g.numbered ==> 0 < u <= g.version && g.numbered[u] in g.committed)
    && (g.unnumbered.Some? ==> g.unnumbered.value in g.committed)
    && (forall id :: id in g.running ==> ReadSound(g, id))
    && (forall reader :: reader in g.readers ==> ReaderSound(g, reader))
    && (forall i :: 0 <= i < |g.snapshots| ==>
        g.snapshots[i].version <= g.version && Covers(g, g.snapshots[i].version, g.snapshots[i].details))
  }

  lemma NextIsSound(g: Game, e: Event)
    requires Sound(g)
    ensures Sound(Next(g, e))
  {
    match e
    case Write(_) => WriteKeeps(g, e);
    case Bump => BumpKeeps(g);
    case Share(reader, newRead) => ShareKeeps(g, e);
    case Finish(_, _) => FinishKeeps(g, e);
    case Deliver(reader) => DeliverKeeps(g, e);
    case _ => OthersKeep(g, e);
  }
  lemma WriteKeeps(g: Game, e: Event) requires Sound(g) && e.Write? ensures Sound(Next(g, e)) {}
  lemma BumpKeeps(g: Game)
    requires Sound(g)
    ensures Sound(Next(g, Bump))
  {
    var next := Next(g, Bump);
    forall version: nat, commits | version <= g.version && Covers(g, version, commits)
      ensures Covers(next, version, commits)
    {}
    forall id | id in next.running ensures ReadSound(next, id) { assert ReadSound(g, id); }
    forall reader | reader in next.readers ensures ReaderSound(next, reader) { assert ReaderSound(g, reader); }
  }
  lemma ShareKeeps(g: Game, e: Event)
    requires Sound(g) && e.Share?
    ensures Sound(Next(g, e))
  {
    var next := Next(g, e);
    forall id | id in next.running ensures ReadSound(next, id) { if id in g.running { assert ReadSound(g, id); } }
    forall reader | reader in next.readers ensures ReaderSound(next, reader) { assert ReaderSound(g, reader); }
  }
  lemma FinishKeeps(g: Game, e: Event)
    requires Sound(g) && e.Finish?
    ensures Sound(Next(g, e))
  {
    var next := Next(g, e);
    forall id | id in next.running ensures ReadSound(next, id) { assert ReadSound(g, id); }
    forall reader | reader in next.readers ensures ReaderSound(next, reader) { assert ReaderSound(g, reader); }
  }
  lemma DeliverKeeps(g: Game, e: Event)
    requires Sound(g) && e.Deliver?
    ensures Sound(Next(g, e))
  {
    var next := Next(g, e);
    if next != g {
      var read := g.readers[e.reader].read;
      assert ReaderSound(g, e.reader) && ReadSound(g, read);
    }
    forall id | id in next.running ensures ReadSound(next, id) { assert ReadSound(g, id); }
    forall reader | reader in next.readers ensures ReaderSound(next, reader) { assert ReaderSound(g, reader); }
  }
  lemma OthersKeep(g: Game, e: Event)
    requires Sound(g) && (e.Abandon? || e.ReadVersion? || e.Crash?)
    ensures Sound(Next(g, e))
  {
    var next := Next(g, e);
    forall id | id in next.running ensures ReadSound(next, id) { assert ReadSound(g, id); }
    forall reader | reader in next.readers
      ensures ReaderSound(next, reader)
    {
      if reader in g.readers { assert ReaderSound(g, reader); }
    }
  }

  lemma {:induction false} EveryRunIsSound(g: Game, events: seq<Event>)
    requires Sound(g)
    ensures Sound(After(g, events))
    decreases |events|
  {
    hide Sound, Next;
    if events != [] {
      NextIsSound(g, events[0]);
      EveryRunIsSound(Next(g, events[0]), events[1..]);
    }
  }

  // Under every interleaving of commands, crashes and connections that share a read: a snapshot
  // stamped with a version holds every commit numbered up to it.
  lemma SnapshotsAreNeverOlderThanTheirStamp(version: nat, committed: set<Commit>, events: seq<Event>, i: nat, u: nat)
    requires var g := After(Game(committed, version, map[], None, map[], None, map[], []), events);
             i < |g.snapshots| && u in g.numbered && u <= g.snapshots[i].version
    ensures var g := After(Game(committed, version, map[], None, map[], None, map[], []), events);
            g.numbered[u] in g.snapshots[i].details
  {
    hide After;
    EveryRunIsSound(Game(committed, version, map[], None, map[], None, map[], []), events);
  }

  // The order matters: were the version read after the data had been read, a commit numbered in
  // between would be missing from a snapshot that claims it.
  lemma StampedLateWouldBeOld(g: Game, c: Commit)
    requires Sound(g) && g.unnumbered.None? && c !in g.committed
    ensures var found := g.committed;
            var later := Next(Next(g, Write(c)), Bump);
            !Covers(later, later.version, found)
  {
    var later := Next(Next(g, Write(c)), Bump);
    assert later.version in later.numbered && later.numbered[later.version] == c;
  }
}
