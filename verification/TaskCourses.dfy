/** That a task can go through every course its specification allows: whatever its stream holds, whenever its token is
    set, and however its reinit comes out, the specified outcome is one it can reach (src/service/arduino/bridge.rs). */
module TaskCourses {
  import opened Protocol
  import opened Conversation
  import opened Frames
  import opened Pumps
  import opened Tasks

  /** What happens to a task: it moves, its token is set, its response goes out. */
  datatype Turn = Make(move: Move) | Fire | Speak

  predicate CanTurn(t: Task, turn: Turn) {
    match turn
    case Make(move) => CanMove(t, move)
    case Fire => true
    case Speak => t.pc.Holding?
  }

  function Turned(t: Task, turn: Turn): Task
    requires CanTurn(t, turn)
  {
    match turn
    case Make(move) => Moved(t, move)
    case Fire => Fired(t)
    case Speak => Spoken(t)
  }

  predicate CanGo(t: Task, turns: seq<Turn>)
    decreases |turns|
  {
    turns == [] || (CanTurn(t, turns[0]) && CanGo(Turned(t, turns[0]), turns[1..]))
  }

  function Went(t: Task, turns: seq<Turn>): Task
    requires CanGo(t, turns)
    decreases |turns|
  {
    if turns == [] then t else Went(Turned(t, turns[0]), turns[1..])
  }

  lemma GoCons(t: Task, turn: Turn, turns: seq<Turn>)
    requires CanTurn(t, turn) && CanGo(Turned(t, turn), turns)
    ensures CanGo(t, [turn] + turns) && Went(t, [turn] + turns) == Went(Turned(t, turn), turns)
  {
    assert ([turn] + turns)[1..] == turns;
  }

  /** A task at its select that has shown the first `n` events. */
  ghost predicate HasShown(t: Task, n: nat) {
    t.pc.Selecting? && t.next == n <= Decisive(t.events) && t.said == Forward(t.events[..n]) && t.cut.Undecided? && !t.cancelled
  }

  /** Once the token is set, the next poll ends it. */
  lemma CancelCourse(t: Task, n: nat) returns (turns: seq<Turn>)
    requires HasShown(t, n)
    ensures CanGo(t, turns) && Went(t, turns).pc.Ended? && Went(t, turns).said == Forward(t.events[..n]) + [CANCELLED]
  {
    var a := Turned(t, Fire);
    var b := Turned(a, Make(Poll));
    GoCons(b, Speak, []);
    GoCons(a, Make(Poll), [Speak] + []);
    GoCons(t, Fire, [Make(Poll)] + ([Speak] + []));
    turns := [Fire] + ([Make(Poll)] + ([Speak] + []));
  }

  /** At the deciding event, or the end of the stream. */
  lemma DecideCourse(t: Task, reinit: Reinit) returns (turns: seq<Turn>)
    requires HasShown(t, Decisive(t.events))
    ensures CanGo(t, turns) && Went(t, turns).pc.Ended?
    ensures Went(t, turns).said == Forward(t.events[..t.next]) + [Verdict(t.kind, t.events, Decisive(t.events), reinit)]
  {
    var a := Turned(t, Make(Poll));
    var b := Turned(a, Make(Move.Ready));
    if b.pc.Reiniting? {
      var c := Turned(b, Make(ReinitDone(reinit)));
      GoCons(c, Speak, []);
      GoCons(b, Make(ReinitDone(reinit)), [Speak] + []);
      turns := [Make(ReinitDone(reinit))] + ([Speak] + []);
    } else {
      GoCons(b, Speak, []);
      turns := [Speak] + [];
    }
    GoCons(a, Make(Move.Ready), turns);
    GoCons(t, Make(Poll), [Make(Move.Ready)] + turns);
    turns := [Make(Poll)] + ([Make(Move.Ready)] + turns);
  }

  /** One more event shown. */
  lemma ShowOne(t: Task, n: nat)
    requires HasShown(t, n) && n < Decisive(t.events)
    ensures CanTurn(t, Make(Poll)) && CanTurn(Turned(t, Make(Poll)), Make(Move.Ready))
    ensures var held := Turned(Turned(t, Make(Poll)), Make(Move.Ready));
      && CanTurn(held, Speak) && HasShown(Turned(held, Speak), n + 1)
      && Turned(held, Speak).events == t.events && Turned(held, Speak).kind == t.kind
  {
    assert t.events[..n + 1] == t.events[..n] + [t.events[n]];
    assert Forward(t.events[..n + 1]) == Forward(t.events[..n]) + [Forwarded(t.events[n])];
  }

  lemma {:induction false} SelectCourse(t: Task, n: nat, cancelAt: nat, reinit: Reinit) returns (turns: seq<Turn>)
    requires HasShown(t, n) && n <= cancelAt
    ensures CanGo(t, turns) && Went(t, turns).pc.Ended? && Went(t, turns).said == Outcome(t.kind, t.events, cancelAt, reinit)
    decreases Decisive(t.events) - n
  {
    if n == cancelAt {
      turns := CancelCourse(t, n);
    } else if n == Decisive(t.events) {
      turns := DecideCourse(t, reinit);
    } else {
      ShowOne(t, n);
      var a := Turned(t, Make(Poll));
      var b := Turned(a, Make(Move.Ready));
      var rest := SelectCourse(Turned(b, Speak), n + 1, cancelAt, reinit);
      GoCons(b, Speak, rest);
      GoCons(a, Make(Move.Ready), [Speak] + rest);
      GoCons(t, Make(Poll), [Make(Move.Ready)] + ([Speak] + rest));
      turns := [Make(Poll)] + ([Make(Move.Ready)] + ([Speak] + rest));
    }
  }

  /** Every outcome that the specification names is reached on some course, of every kind of task. */
  lemma EveryOutcomeHappens(id: string, kind: Kind, events: seq<Event>, cancelAt: nat, reinit: Reinit) returns (turns: seq<Turn>)
    ensures CanGo(Spawned(id, kind, events), turns) && Went(Spawned(id, kind, events), turns).pc.Ended?
    ensures Went(Spawned(id, kind, events), turns).said == Outcome(kind, events, cancelAt, reinit)
  {
    var t := Spawned(id, kind, events);
    var a := Turned(t, Make(StartOk));
    assert HasShown(a, 0);
    turns := SelectCourse(a, 0, cancelAt, reinit);
    GoCons(t, Make(StartOk), turns);
    turns := [Make(StartOk)] + turns;
  }

  /** A stream may also refuse to start, in whatever words. */
  lemma EveryRefusalHappens(id: string, kind: Kind, events: seq<Event>, code: Code, detail: string) returns (turns: seq<Turn>)
    ensures CanGo(Spawned(id, kind, events), turns) && Went(Spawned(id, kind, events), turns).pc.Ended?
    ensures Went(Spawned(id, kind, events), turns).said == [Failure(code, detail)]
  {
    var t := Spawned(id, kind, events);
    var a := Turned(t, Make(StartErr(code, detail)));
    GoCons(a, Speak, []);
    GoCons(t, Make(StartErr(code, detail)), [Speak] + []);
    turns := [Make(StartErr(code, detail))] + ([Speak] + []);
  }
}
