/**
 Workers in several processes on one database file. A claim, a delivery and a retry are single
 guarded statements there too, but a dead letter is two: it reads the row that it holds, and later
 writes the dead letter and the row's status without asking again who holds it. Within one store
 object the lock makes the two one step.
 */
module OutboxProcesses {
  import opened Outcomes
  import opened Outbox
  import opened Text

  /** What a dead letter has read. */
  datatype Read = Read(worker: string, error: string, row: Event)

  datatype Shared = Shared(world: World, letters: map<nat, Read>)

  datatype Move = Plain(step: Step) | ReadToKill(call: nat, worker: string, id: string, error: string)
        | WriteKill(call: nat, now: int)

  /** The unguarded write: the letter as it was read, and the row as it is now. */
  function Overwrite(t: Tables, r: Read, now: int): Tables {
    var e, error := r.row, Truncated(r.error);
    var letter := DeadRow(e.topic, e.destination, e.payload, e.key, e.attempts, error, e.createdAt, now);
    Tables(if e.id in t.rows then t.rows[e.id := t.rows[e.id].(status := DeadLetter, lastError := error)] else t.rows,
           t.dead[e.id := letter])
  }

  /** The worker still holds the lease under which it read. */
  predicate StillHeld(t: Tables, r: Read) {
    Holds(t, r.row.id, r.worker) && t.rows[r.row.id].attempts == r.row.attempts
  }

  predicate Writes(s: Shared, move: Move) {
    move.WriteKill? && move.call in s.letters && s.world.clock <= move.now
  }

  ghost function Next(s: Shared, move: Move): Shared {
    match move
    case Plain(step) => s.(world := Outbox.Next(s.world, step))
    case ReadToKill(call, worker, id, error) =>
      if call in s.letters || !Holds(s.world.tables, id, worker) then s
      else s.(letters := s.letters[call := Read(worker, error, s.world.tables.rows[id])])
    case WriteKill(call, now) =>
      if !Writes(s, move) then s
      else
        var r := s.letters[call];
        var facts := if StillHeld(s.world.tables, r) then s.world.facts + [Buried(r.row.id, r.worker)]
            else s.world.facts;
        Shared(World(Overwrite(s.world.tables, r, now), now, facts), s.letters - {call})
  }

  ghost function Run(moves: seq<Move>): Shared {
    if moves == [] then Shared(EMPTY, map[]) else Next(Run(moves[..|moves| - 1]), moves[|moves| - 1])
  }

  // ----- Runs in which no lease is lost in between -----

  predicate Stale(s: Shared, move: Move) {
    Writes(s, move) && !StillHeld(s.world.tables, s.letters[move.call])
  }

  /** Every dead letter is written under the lease it was read under. */
  ghost predicate NeverStale(moves: seq<Move>) {
    forall n :: 0 <= n < |moves| ==> !Stale(Run(moves[..n]), moves[n])
  }

  predicate SameOrigin(a: Event, b: Event) {
    a.id == b.id && a.topic == b.topic && a.destination == b.destination && a.payload == b.payload && a.key == b.key
        && a.createdAt == b.createdAt
  }

  /** What was read is of an event that is still there. */
  ghost predicate ReadsOk(s: Shared) {
    && (forall id :: id in s.world.tables.rows ==> s.world.tables.rows[id].id == id)
    && (forall call :: call in s.letters ==>
          s.letters[call].row.id in s.world.tables.rows
              && SameOrigin(s.world.tables.rows[s.letters[call].row.id], s.letters[call].row))
  }

  lemma StepKeepsOrigin(w: World, step: Step, id: string)
    requires id in w.tables.rows
    ensures id in Outbox.Next(w, step).tables.rows
            && SameOrigin(Outbox.Next(w, step).tables.rows[id], w.tables.rows[id])
  {
  }

  lemma StepKeepsIds(w: World, step: Step)
    requires forall id :: id in w.tables.rows ==> w.tables.rows[id].id == id
    ensures forall id :: id in Outbox.Next(w, step).tables.rows ==> Outbox.Next(w, step).tables.rows[id].id == id
  {
  }

  lemma PlainKeepsReads(s: Shared, step: Step)
    requires ReadsOk(s)
    ensures ReadsOk(s.(world := Outbox.Next(s.world, step)))
  {
    StepKeepsIds(s.world, step);
    forall call | call in s.letters
      ensures s.letters[call].row.id in Outbox.Next(s.world, step).tables.rows
      ensures SameOrigin(Outbox.Next(s.world, step).tables.rows[s.letters[call].row.id], s.letters[call].row)
    {
      StepKeepsOrigin(s.world, step, s.letters[call].row.id);
    }
  }

  lemma NextKeepsReads(s: Shared, move: Move)
    requires ReadsOk(s)
    ensures ReadsOk(Next(s, move))
  {
    if move.Plain? {
      PlainKeepsReads(s, move.step);
    }
  }

  lemma {:induction false} RunKeepsReads(moves: seq<Move>)
    ensures ReadsOk(Run(moves))
  {
    if moves != [] {
      RunKeepsReads(moves[..|moves| - 1]);
      NextKeepsReads(Run(moves[..|moves| - 1]), moves[|moves| - 1]);
    }
  }

  /** A write under the lease it was read under is the atomic dead letter. */
  lemma HeldWriteIsKill(s: Shared, call: nat, now: int)
    requires ReadsOk(s) && Writes(s, WriteKill(call, now)) && StillHeld(s.world.tables, s.letters[call])
    ensures Next(s, WriteKill(call, now)).world
         == Outbox.Next(s.world, Kill(s.letters[call].worker, s.letters[call].row.id, s.letters[call].error, now))
  {
  }

  /** What a move does to the tables, as steps of a single store. */
  ghost function StepsOf(s: Shared, move: Move): seq<Step> {
    match move
    case Plain(step) => [step]
    case ReadToKill(_, _, _, _) => []
    case WriteKill(call, now) =>
      if Writes(s, move) then [Kill(s.letters[call].worker, s.letters[call].row.id, s.letters[call].error, now)] else []
  }

  ghost function Projection(moves: seq<Move>): seq<Step> {
    if moves == [] then []
    else Projection(moves[..|moves| - 1]) + StepsOf(Run(moves[..|moves| - 1]), moves[|moves| - 1])
  }

  lemma StepsAppend(w: World, steps: seq<Step>, more: seq<Step>)
    requires |more| <= 1
    ensures Outbox.Run(w, steps + more) == if more == [] then Outbox.Run(w, steps)
            else Outbox.Next(Outbox.Run(w, steps), more[0])
  {
    if more == [] {
      assert steps + more == steps;
    } else {
      assert (steps + more)[..|steps|] == steps && (steps + more)[|steps|] == more[0];
    }
  }

  lemma HeldMove(s: Shared, move: Move, steps: seq<Step>)
    requires ReadsOk(s) && !Stale(s, move) && s.world == Outbox.Run(EMPTY, steps)
    ensures Next(s, move).world == Outbox.Run(EMPTY, steps + StepsOf(s, move))
  {
    StepsAppend(EMPTY, steps, StepsOf(s, move));
    if Writes(s, move) {
      HeldWriteIsKill(s, move.call, move.now);
    }
  }

  /**
   If every dead letter is written under the lease it was read under, the processes do nothing that
   workers of one store object could not do: lease safety and final states carry over.
   */
  lemma {:induction false} HeldRunsAreRuns(moves: seq<Move>)
    requires NeverStale(moves)
    ensures Run(moves).world == Outbox.Run(EMPTY, Projection(moves)) && Invariant(Run(moves).world)
  {
    if moves != [] {
      var init, last := moves[..|moves| - 1], moves[|moves| - 1];
      assert forall n :: 0 <= n < |init| ==> init[..n] == moves[..n] && init[n] == moves[n];
      assert !Stale(Run(init), last);
      HeldRunsAreRuns(init);
      RunKeepsReads(init);
      HeldMove(Run(init), last, Projection(init));
    }
    RunKeepsInvariant(Projection(moves));
  }

  /** Within one store object, where the lock keeps each write right behind its read, that is so. */
  ghost predicate Locked(moves: seq<Move>) {
    forall n :: 0 <= n < |moves| && Writes(Run(moves[..n]), moves[n]) ==>
      n > 0 && moves[n - 1].ReadToKill? && moves[n - 1].call == moves[n].call
          && moves[n - 1].call !in Run(moves[..n - 1]).letters
  }

  lemma LockedRunsAreHeld(moves: seq<Move>)
    requires Locked(moves)
    ensures NeverStale(moves)
  {
    forall n | 0 <= n < |moves| && Writes(Run(moves[..n]), moves[n])
      ensures !Stale(Run(moves[..n]), moves[n])
    {
      RunKeepsReads(moves[..n - 1]);
      LockedWriteIsHeld(Run(moves[..n - 1]), moves[n - 1], moves[n]);
      assert moves[..n][..n - 1] == moves[..n - 1];
    }
  }

  lemma LockedWriteIsHeld(s: Shared, read: Move, write: Move)
    requires ReadsOk(s) && read.ReadToKill? && write.WriteKill? && read.call == write.call && read.call !in s.letters
    ensures !Stale(Next(s, read), write)
  {
  }

  // ----- When a lease is lost in between -----

  /**
   No move changes a finished event but one: the write of a dead letter whose event was delivered in
   the meantime, or died with another error. Everything else leaves its row alone.
   */
  lemma FinishedRowKeptIff(s: Shared, move: Move, id: string)
    requires id in s.world.tables.rows && IsFinished(s.world.tables.rows[id])
    ensures var row, t := s.world.tables.rows[id], Next(s, move).world.tables;
            && id in t.rows
            && (t.rows[id] == row <==>
                  !(Writes(s, move) && s.letters[move.call].row.id == id
                    && (row.status == Delivered || row.lastError != Truncated(s.letters[move.call].error))))
  {
    if Writes(s, move) && s.letters[move.call].row.id == id {
      assert Next(s, move).world.tables.rows[id]
          == s.world.tables.rows[id].(status := DeadLetter, lastError := Truncated(s.letters[move.call].error));
    }
  }

  lemma RunNext(moves: seq<Move>, move: Move)
    ensures Run(moves + [move]) == Next(Run(moves), move)
  {
    assert (moves + [move])[..|moves|] == moves;
  }

  const LETTER := Event("e", "t", "d", "p", "k", Pending, 0, 0, "", 0, None)

  lemma Names()
    ensures Strip("a") != "" && Strip("b") != ""
  {
  }

  lemma OnlyRowIsSelected(rows: map<string, Event>, e: Event, now: int)
    requires rows == map[e.id := e] && IsDue(e, now, "")
    ensures IsSelection(rows, [e.id], now, "", 1)
  {
  }

  /** Worker `a` claims for a second and reads; its lease runs out, `b` claims and delivers; then `a` writes. */
  lemma LostLease(w: World) returns (s: Shared)
    requires w.tables == Tables(map["e" := LETTER], map[]) && w.clock == 0
    ensures var c1 := Plain(Claim("a", ["e"], 0, 0, 1, 1, ""));
            var c2 := Plain(Claim("b", ["e"], 2, 2, 1, 9, ""));
            s == Next(Next(Next(Next(Shared(w, map[]), c1), ReadToKill(0, "a", "e", "x")), c2),
                Plain(Deliver("b", "e", 2)))
    ensures "e" in s.world.tables.rows && s.world.tables.rows["e"].status == Delivered
    ensures 0 in s.letters && s.letters[0].row.id == "e" && s.world.clock == 2
  {
    Names();
    var c1 := Plain(Claim("a", ["e"], 0, 0, 1, 1, ""));
    var c2 := Plain(Claim("b", ["e"], 2, 2, 1, 9, ""));
    OnlyRowIsSelected(w.tables.rows, LETTER, 0);
    var s1 := Next(Shared(w, map[]), c1);
    var leased := Lease(LETTER, "a", 1);
    assert s1.world.tables.rows == map["e" := leased];
    var s2 := Next(s1, ReadToKill(0, "a", "e", "x"));
    assert s2.letters == map[0 := Read("a", "x", leased)];
    OnlyRowIsSelected(s2.world.tables.rows, leased, 2);
    var s3 := Next(s2, c2);
    assert s3.world.tables.rows == map["e" := Lease(leased, "b", 11)];
    s := Next(s3, Plain(Deliver("b", "e", 2)));
  }

  lemma FirstEnqueue()
    ensures Run([Plain(Enqueue(LETTER))]) == Shared(World(Tables(map["e" := LETTER], map[]), 0, []), map[])
  {
    RunNext([], Plain(Enqueue(LETTER)));
    assert [] + [Plain(Enqueue(LETTER))] == [Plain(Enqueue(LETTER))];
    assert Run([]) == Shared(EMPTY, map[]) && !HasKey(EMPTY.tables.rows, "d", "k");
  }

  lemma RunOfFour(moves: seq<Move>, a: Move, b: Move, c: Move, d: Move)
    ensures Run(moves + [a] + [b] + [c] + [d]) == Next(Next(Next(Next(Run(moves), a), b), c), d)
  {
    RunNext(moves, a);
    RunNext(moves + [a], b);
    RunNext(moves + [a] + [b], c);
    RunNext(moves + [a] + [b] + [c], d);
  }

  lemma WriteKills(s: Shared)
    requires "e" in s.world.tables.rows && 0 in s.letters && s.letters[0].row.id == "e" && s.world.clock == 2
    ensures var t := Next(s, WriteKill(0, 2)).world.tables; "e" in t.rows && t.rows["e"].status == DeadLetter
  {
  }

  /** A run that turns a delivered event into a dead letter. */
  lemma DeliveredCanDie() returns (before: seq<Move>, write: Move)
    ensures var t, t' := Run(before).world.tables, Run(before + [write]).world.tables;
            && "e" in t.rows && t.rows["e"].status == Delivered && "e" in t'.rows && t'.rows["e"].status == DeadLetter
  {
    var first := [Plain(Enqueue(LETTER))];
    var c1, c2 := Plain(Claim("a", ["e"], 0, 0, 1, 1, "")), Plain(Claim("b", ["e"], 2, 2, 1, 9, ""));
    var read, deliver := ReadToKill(0, "a", "e", "x"), Plain(Deliver("b", "e", 2));
    before, write := first + [c1] + [read] + [c2] + [deliver], WriteKill(0, 2);
    FirstEnqueue();
    RunOfFour(first, c1, read, c2, deliver);
    var s := LostLease(World(Tables(map["e" := LETTER], map[]), 0, []));
    WriteKills(s);
    RunNext(before, write);
  }
}
