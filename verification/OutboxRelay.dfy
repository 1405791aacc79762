/** Delivery at least once: whatever publishes, drains, replays, bus failures and crashes interleave, an appended
    envelope is still waiting or has reached its topic. */
module OutboxRelay {
  import opened Options
  import opened Outbox

  type Bus = map<string, seq<string>>

  function Deliver(bus: Bus, topic: string, envelope: string): Bus {
    bus[topic := (if topic in bus then bus[topic] else []) + [envelope]]
  }

  predicate Delivered(bus: Bus, topic: string, envelope: string) {
    topic in bus && envelope in bus[topic]
  }

  predicate Waiting(r: Row) {
    r.status == Pending || r.status == Failed
  }

  // ----- Interleaved steps -----

  datatype Stage = Ready | Answered(ok: bool)

  /** A drain under way: the rows of its snapshot still to visit, and whether the bus has answered for the first. */
  datatype Drain = Drain(rows: seq<Row>, stage: Stage)

  datatype Machine = Machine(log: seq<Row>, number: nat, bus: Bus, drains: map<nat, Drain>,
                             appended: seq<(string, string)>)

  const START: Machine := Machine([], 0, map[], map[], [])

  datatype Step =
    | Publish(topic: string, envelope: string)
    | Replay(n: nat, attempts: nat)
    | Begin(d: nat)
    | Send(d: nat, up: bool)
    | Record(d: nat)
    | Crash

  /** Visiting the first row of a snapshot: pass over it, or hand it to the bus. */
  function Sent(m: Machine, d: nat, up: bool): Machine
    requires d in m.drains && m.drains[d].rows != [] && m.drains[d].stage == Ready
  {
    var rows := m.drains[d].rows;
    if !Waiting(rows[0]) then m.(drains := m.drains[d := Drain(rows[1..], Ready)])
    else m.(bus := if up then Deliver(m.bus, rows[0].topic, rows[0].envelope) else m.bus,
            drains := m.drains[d := Drain(rows, Answered(up))])
  }

  function Recorded(m: Machine, d: nat): Machine
    requires d in m.drains && m.drains[d].rows != [] && m.drains[d].stage.Answered?
  {
    var rows := m.drains[d].rows;
    m.(log := MarkedLog(m.log, rows[0].number,
                        if m.drains[d].stage.ok then Published else Failed, rows[0].attempts + 1),
       drains := m.drains[d := Drain(rows[1..], Ready)])
  }

  function Next(m: Machine, s: Step): Machine {
    match s
    case Publish(topic, envelope) =>
      m.(number := m.number + 1, log := m.log + [Row(m.number + 1, topic, envelope, Pending, 0)],
         appended := m.appended + [(topic, envelope)])
    case Replay(n, attempts) => m.(log := MarkedLog(m.log, n, Pending, attempts))
    case Begin(d) => m.(drains := m.drains[d := Drain(Rows(m.log), Ready)])
    case Send(d, up) =>
      if d in m.drains && m.drains[d].rows != [] && m.drains[d].stage == Ready then Sent(m, d, up) else m
    case Record(d) =>
      if d in m.drains && m.drains[d].rows != [] && m.drains[d].stage.Answered? then Recorded(m, d) else m
    case Crash => m.(drains := map[], number := MaxNumber(Rows(m.log)))
  }

  function Run(steps: seq<Step>): Machine {
    if steps == [] then START else Next(Run(steps[..|steps| - 1]), steps[|steps| - 1])
  }

  // ----- What every step keeps -----

  /** A row carries the envelope that was appended under its number. */
  predicate Carries(appended: seq<(string, string)>, r: Row) {
    1 <= r.number <= |appended| && (r.topic, r.envelope) == appended[r.number - 1]
  }

  /** A row marked published has been delivered. */
  predicate Honest(bus: Bus, r: Row) {
    r.status == Published ==> Delivered(bus, r.topic, r.envelope)
  }

  ghost predicate LogOk(log: seq<Row>, bus: Bus, appended: seq<(string, string)>) {
    && (forall n :: 1 <= n <= |appended| ==> Latest(log, n).Some?)
    && (forall n: nat :: Latest(log, n).Some? ==>
          var r := Latest(log, n).value; r.number == n && Carries(appended, r) && Honest(bus, r))
  }

  ghost predicate DrainOk(d: Drain, bus: Bus, appended: seq<(string, string)>) {
    && (forall i :: 0 <= i < |d.rows| ==> Carries(appended, d.rows[i]))
    && (d.stage == Answered(true) ==> d.rows != [] && Delivered(bus, d.rows[0].topic, d.rows[0].envelope))
  }

  ghost predicate DrainsOk(m: Machine) {
    forall d :: d in m.drains ==> DrainOk(m.drains[d], m.bus, m.appended)
  }

  ghost predicate Inv(m: Machine) {
    m.number == |m.appended| && LogOk(m.log, m.bus, m.appended) && DrainsOk(m)
  }

  lemma PublishKeeps(m: Machine, topic: string, envelope: string)
    requires Inv(m)
    ensures Inv(Next(m, Publish(topic, envelope)))
  {
    var m' := Next(m, Publish(topic, envelope));
    var r := Row(m.number + 1, topic, envelope, Pending, 0);
    forall n: nat
      ensures Latest(m'.log, n) == if n == r.number then Some(r) else Latest(m.log, n)
    {
      LatestNext(m.log, r, n);
    }
    forall x | Carries(m.appended, x)
      ensures Carries(m'.appended, x)
    {
    }
  }

  /** Marking keeps the log right when a published mark is earned. */
  lemma MarkKeeps(log: seq<Row>, bus: Bus, appended: seq<(string, string)>, k: nat, status: Status, attempts: nat)
    requires LogOk(log, bus, appended)
    requires status == Published && 1 <= k <= |appended| ==> Delivered(bus, appended[k - 1].0, appended[k - 1].1)
    ensures LogOk(MarkedLog(log, k, status, attempts), bus, appended)
  {
    if Latest(log, k).Some? {
      var r := Latest(log, k).value.(status := status, attempts := attempts);
      forall n: nat
        ensures Latest(log + [r], n) == if n == r.number then Some(r) else Latest(log, n)
      {
        LatestNext(log, r, n);
      }
    }
  }

  lemma BusGrows(bus: Bus, topic: string, envelope: string)
    ensures Delivered(Deliver(bus, topic, envelope), topic, envelope)
    ensures forall t, e :: Delivered(bus, t, e) ==> Delivered(Deliver(bus, topic, envelope), t, e)
  {
  }

  lemma SendKeeps(m: Machine, d: nat, up: bool)
    requires Inv(m) && d in m.drains && m.drains[d].rows != [] && m.drains[d].stage == Ready
    ensures Inv(Sent(m, d, up))
  {
    var r := m.drains[d].rows[0];
    BusGrows(m.bus, r.topic, r.envelope);
  }

  lemma RecordKeeps(m: Machine, d: nat)
    requires Inv(m) && d in m.drains && m.drains[d].rows != [] && m.drains[d].stage.Answered?
    ensures Inv(Recorded(m, d))
  {
    var r := m.drains[d].rows[0];
    assert DrainOk(m.drains[d], m.bus, m.appended);
    assert Carries(m.appended, r);
    MarkKeeps(m.log, m.bus, m.appended, r.number, if m.drains[d].stage.ok then Published else Failed, r.attempts + 1);
  }

  lemma BeginKeeps(m: Machine, d: nat)
    requires Inv(m)
    ensures Inv(Next(m, Begin(d)))
  {
    RowsAreLatest(m.log);
    forall i | 0 <= i < |Rows(m.log)|
      ensures Carries(m.appended, Rows(m.log)[i])
    {
      assert Rows(m.log)[i] in Rows(m.log);
    }
  }

  /** A restart finds the numbering where it was. */
  lemma CrashKeeps(m: Machine)
    requires Inv(m)
    ensures Inv(Next(m, Crash)) && Next(m, Crash).number == m.number
  {
    RowsAreLatest(m.log);
    if m.number > 0 {
      LatestInRows(m.log, m.number);
      assert Latest(m.log, m.number).Some?;
    }
    MaxIs(Rows(m.log), m.number);
  }

  lemma NextKeepsInv(m: Machine, s: Step)
    requires Inv(m)
    ensures Inv(Next(m, s))
  {
    match s
    case Publish(topic, envelope) => PublishKeeps(m, topic, envelope);
    case Replay(n, attempts) => MarkKeeps(m.log, m.bus, m.appended, n, Pending, attempts);
    case Begin(d) => BeginKeeps(m, d);
    case Send(d, up) =>
      if d in m.drains && m.drains[d].rows != [] && m.drains[d].stage == Ready {
        SendKeeps(m, d, up);
      }
    case Record(d) =>
      if d in m.drains && m.drains[d].rows != [] && m.drains[d].stage.Answered? {
        RecordKeeps(m, d);
      }
    case Crash => CrashKeeps(m);
  }

  lemma {:induction false} RunKeepsInv(steps: seq<Step>)
    ensures Inv(Run(steps))
  {
    if steps != [] {
      RunKeepsInv(steps[..|steps| - 1]);
      NextKeepsInv(Run(steps[..|steps| - 1]), steps[|steps| - 1]);
    }
  }

  /** Over every interleaving: the i-th appended envelope has the number i + 1 and no other, and its row is still
      waiting or the envelope has reached its topic. */
  lemma AtLeastOnce(steps: seq<Step>, i: nat)
    requires i < |Run(steps).appended|
    ensures var m := Run(steps);
      && m.number == |m.appended| && Latest(m.log, i + 1).Some?
      && var r := Latest(m.log, i + 1).value;
        && r.number == i + 1 && (r.topic, r.envelope) == m.appended[i]
        && (Waiting(r) || Delivered(m.bus, r.topic, r.envelope))
  {
    RunKeepsInv(steps);
    assert Carries(Run(steps).appended, Latest(Run(steps).log, i + 1).value);
  }

  // ----- An undisturbed drain -----

  /** The log and the bus after one row of the snapshot has been visited. */
  function Visit(log: seq<Row>, bus: Bus, r: Row, up: bool): (seq<Row>, Bus) {
    if !Waiting(r) then (log, bus)
    else if up then (MarkedLog(log, r.number, Published, r.attempts + 1), Deliver(bus, r.topic, r.envelope))
    else (MarkedLog(log, r.number, Failed, r.attempts + 1), bus)
  }

  /** And after the first n. */
  function DrainTo(log: seq<Row>, bus: Bus, rows: seq<Row>, n: nat, up: nat -> bool): (seq<Row>, Bus)
    requires n <= |rows|
  {
    if n == 0 then (log, bus)
    else
      var (log', bus') := DrainTo(log, bus, rows, n - 1, up);
      Visit(log', bus', rows[n - 1], up(n - 1))
  }

  /** How many of the first n rows the bus took. */
  function Accepted(rows: seq<Row>, n: nat, up: nat -> bool): nat
    requires n <= |rows|
  {
    if n == 0 then 0 else Accepted(rows, n - 1, up) + if Waiting(rows[n - 1]) && up(n - 1) then 1 else 0
  }

  /** One row of the relay loop. */
  method DrainOne(box: DurableOutbox, bus: Bus, r: Row, up: bool) returns (sent: bool, bus': Bus)
    modifies box
    ensures (box.log, bus') == Visit(old(box.log), bus, r, up)
    ensures box.number == old(box.number) && sent == (Waiting(r) && up)
  {
    sent, bus' := false, bus;
    if r.status != Pending && r.status != Failed {
      return;
    }
    if up {
      bus' := Deliver(bus, r.topic, r.envelope);
      var _ := box.Mark(r.number, Published, r.attempts + 1);
      sent := true;
    } else {
      var _ := box.Mark(r.number, Failed, r.attempts + 1);
    }
  }

  /** The relay loop; `up` says for which rows the bus accepts. */
  method DrainAll(box: DurableOutbox, bus: Bus, up: nat -> bool) returns (n: nat, bus': Bus)
    modifies box
    ensures (box.log, bus') == DrainTo(old(box.log), bus, Rows(old(box.log)), |Rows(old(box.log))|, up)
    ensures box.number == old(box.number) && n == Accepted(Rows(old(box.log)), |Rows(old(box.log))|, up)
  {
    var rows := box.ReadRows();
    n, bus' := 0, bus;
    var i := 0;
    while i < |rows|
      invariant 0 <= i <= |rows| && (box.log, bus') == DrainTo(old(box.log), bus, rows, i, up)
      invariant box.number == old(box.number) && n == Accepted(rows, i, up)
    {
      var sent;
      sent, bus' := DrainOne(box, bus', rows[i], up(i));
      if sent {
        n := n + 1;
      }
      i := i + 1;
    }
  }

  /** After n rows with a working bus: those are published, the rest are as they were. */
  ghost predicate DrainedTo(log: seq<Row>, log': seq<Row>, rows: seq<Row>, n: nat)
    requires n <= |rows|
  {
    && (forall k :: 0 <= k < n ==>
          Latest(log', rows[k].number).Some? && Latest(log', rows[k].number).value.status == Published)
    && (forall k :: n <= k < |rows| ==> Latest(log', rows[k].number) == Latest(log, rows[k].number))
    && forall m: nat :: Latest(log', m).Some? <==> Latest(log, m).Some?
  }

  lemma MarkedLatest(log: seq<Row>, n: nat, status: Status, attempts: nat, m: nat)
    requires Latest(log, n).Some?
    ensures Latest(MarkedLog(log, n, status, attempts), m) ==
      if m == n then Some(Latest(log, n).value.(status := status, attempts := attempts)) else Latest(log, m)
  {
    LatestNumber(log, n);
    LatestNext(log, Latest(log, n).value.(status := status, attempts := attempts), m);
  }

  lemma {:induction false} DrainSteps(log: seq<Row>, bus: Bus, rows: seq<Row>, n: nat, up: nat -> bool)
    requires n <= |rows| && Numbered(rows) && forall i :: up(i)
    requires forall k :: 0 <= k < |rows| ==> Latest(log, rows[k].number) == Some(rows[k])
    ensures DrainedTo(log, DrainTo(log, bus, rows, n, up).0, rows, n)
    decreases n
  {
    if n > 0 {
      DrainSteps(log, bus, rows, n - 1, up);
      var log', r := DrainTo(log, bus, rows, n - 1, up).0, rows[n - 1];
      assert Latest(log', r.number) == Some(r);
      if Waiting(r) {
        assert up(n - 1);
        forall m: nat
          ensures Latest(MarkedLog(log', r.number, Published, r.attempts + 1), m) ==
            if m == r.number then Some(r.(status := Published, attempts := r.attempts + 1)) else Latest(log', m)
        {
          MarkedLatest(log', r.number, Published, r.attempts + 1, m);
        }
      }
    }
  }

  /** While the bus accepts, one drain leaves no row waiting. */
  lemma DrainEmpties(log: seq<Row>, bus: Bus, up: nat -> bool, n: nat)
    requires forall i :: up(i)
    ensures var log' := DrainTo(log, bus, Rows(log), |Rows(log)|, up).0;
      Latest(log', n).Some? ==> Latest(log', n).value.status == Published
  {
    RowsAreLatest(log);
    var rows := Rows(log);
    forall k | 0 <= k < |rows|
      ensures Latest(log, rows[k].number) == Some(rows[k])
    {
      assert rows[k] in rows;
    }
    DrainSteps(log, bus, rows, |rows|, up);
    LatestInRows(log, n);
  }

  // ----- What a drain does to every row and every topic -----

  /** The row after its visit. */
  function Visited(r: Row, up: bool): Row {
    if r.status == Published then r else r.(status := if up then Published else Failed, attempts := r.attempts + 1)
  }

  ghost predicate DrainedRows(log: seq<Row>, log': seq<Row>, rows: seq<Row>, n: nat, up: nat -> bool)
    requires n <= |rows|
  {
    && (forall k: nat :: k < n ==> Latest(log', rows[k].number) == Some(Visited(rows[k], up(k))))
    && (forall k: nat :: n <= k < |rows| ==> Latest(log', rows[k].number) == Latest(log, rows[k].number))
  }

  lemma {:induction false} DrainRows(log: seq<Row>, bus: Bus, rows: seq<Row>, n: nat, up: nat -> bool)
    requires n <= |rows| && Numbered(rows)
    requires forall k :: 0 <= k < |rows| ==> Latest(log, rows[k].number) == Some(rows[k])
    ensures DrainedRows(log, DrainTo(log, bus, rows, n, up).0, rows, n, up)
    decreases n
  {
    if n > 0 {
      DrainRows(log, bus, rows, n - 1, up);
      var log', r := DrainTo(log, bus, rows, n - 1, up).0, rows[n - 1];
      assert Latest(log', r.number) == Some(r);
      if Waiting(r) {
        var status := if up(n - 1) then Published else Failed;
        forall m: nat
          ensures Latest(MarkedLog(log', r.number, status, r.attempts + 1), m) ==
            if m == r.number then Some(r.(status := status, attempts := r.attempts + 1)) else Latest(log', m)
        {
          MarkedLatest(log', r.number, status, r.attempts + 1, m);
        }
      }
    }
  }

  function On(bus: Bus, topic: string): seq<string> {
    if topic in bus then bus[topic] else []
  }

  /** The envelopes for a topic that the bus took, in order. */
  function TakenOn(rows: seq<Row>, n: nat, up: nat -> bool, topic: string): seq<string>
    requires n <= |rows|
  {
    if n == 0 then []
    else
      TakenOn(rows, n - 1, up, topic)
      + if rows[n - 1].topic == topic && rows[n - 1].status != Published && up(n - 1) then
        [rows[n - 1].envelope] else []
  }

  lemma {:induction false} DrainBus(log: seq<Row>, bus: Bus, rows: seq<Row>, n: nat, up: nat -> bool, topic: string)
    requires n <= |rows|
    ensures On(DrainTo(log, bus, rows, n, up).1, topic) == On(bus, topic) + TakenOn(rows, n, up, topic)
    decreases n
  {
    if n > 0 {
      DrainBus(log, bus, rows, n - 1, up, topic);
    }
  }

  /** Whatever the bus answers: a drain gives every waiting row one more attempt and the status of its answer, leaves
      published rows alone, and each topic receives exactly the envelopes taken for it, in the order of their numbers'
      first appearance. */
  lemma DrainExact(log: seq<Row>, bus: Bus, up: nat -> bool, k: nat, topic: string)
    requires k < |Rows(log)|
    ensures var rows := Rows(log); var (log', bus') := DrainTo(log, bus, rows, |rows|, up);
      && Latest(log, rows[k].number) == Some(rows[k])
      && Latest(log', rows[k].number) == Some(Visited(rows[k], up(k)))
      && On(bus', topic) == On(bus, topic) + TakenOn(rows, |rows|, up, topic)
  {
    RowsAreLatest(log);
    var rows := Rows(log);
    forall i | 0 <= i < |rows|
      ensures Latest(log, rows[i].number) == Some(rows[i])
    {
      assert rows[i] in rows;
    }
    DrainRows(log, bus, rows, |rows|, up);
    DrainBus(log, bus, rows, |rows|, up, topic);
  }

  // ----- The interleaved drain, undisturbed -----

  function After(m: Machine, steps: seq<Step>): Machine {
    if steps == [] then m else Next(After(m, steps[..|steps| - 1]), steps[|steps| - 1])
  }

  lemma AfterNext(m: Machine, steps: seq<Step>, s: Step)
    ensures After(m, steps + [s]) == Next(After(m, steps), s)
  {
    hide Next;
    assert (steps + [s])[..|steps|] == steps;
  }

  /** The steps of a drain with nothing in between: a row that waits is sent and recorded, another one passed over. */
  function DrainOf(d: nat, rows: seq<Row>, n: nat, up: nat -> bool): seq<Step>
    requires n <= |rows|
  {
    if n == 0 then [Begin(d)]
    else
      DrainOf(d, rows, n - 1, up) + [Send(d, up(n - 1))]
      + if rows[n - 1].status == Published then [] else [Record(d)]
  }

  /** The steps of the relay loop are what the loop does: the interleaved drain, when nothing interleaves, is the
      drain. */
  lemma {:induction false} StepsDrain(m: Machine, d: nat, n: nat, up: nat -> bool)
    requires n <= |Rows(m.log)|
    ensures var rows := Rows(m.log); var m' := After(m, DrainOf(d, rows, n, up));
      && (m'.log, m'.bus) == DrainTo(m.log, m.bus, rows, n, up)
      && m'.number == m.number && m'.appended == m.appended
      && d in m'.drains && m'.drains[d] == Drain(rows[n..], Ready)
  {
    hide Rows, After, DrainOf, DrainTo;
    StepsReach(m, d, Rows(m.log), n, up);
  }

  /** `m'` is what draining the first n rows makes of `m`. */
  predicate DrainedBy(m: Machine, d: nat, rows: seq<Row>, n: nat, up: nat -> bool, m': Machine)
    requires n <= |rows|
  {
    && (m'.log, m'.bus) == DrainTo(m.log, m.bus, rows, n, up)
    && m'.number == m.number && m'.appended == m.appended
    && d in m'.drains && m'.drains[d] == Drain(rows[n..], Ready)
  }

  lemma {:induction false} StepsReach(m: Machine, d: nat, rows: seq<Row>, n: nat, up: nat -> bool)
    requires rows == Rows(m.log) && n <= |rows|
    ensures DrainedBy(m, d, rows, n, up, After(m, DrainOf(d, rows, n, up)))
    decreases n
  {
    hide Rows, Visit, Next, After;
    if n == 0 {
      DrainBegins(m, d, rows, n, up);
      AfterNext(m, [], Begin(d));
      assert [] + [Begin(d)] == [Begin(d)] && After(m, []) == m by {
        AfterNothing(m);
      }
    } else {
      hide DrainOf, DrainTo, DrainedBy;
      StepsReach(m, d, rows, n - 1, up);
      DrainsNext(m, d, rows, n, up, After(m, DrainOf(d, rows, n - 1, up)));
      RowSteps(m, d, rows, n, up);
    }
  }

  lemma AfterNothing(m: Machine)
    ensures After(m, []) == m
  {
  }

  lemma DrainBegins(m: Machine, d: nat, rows: seq<Row>, n: nat, up: nat -> bool)
    requires rows == Rows(m.log) && n == 0
    ensures DrainedBy(m, d, rows, n, up, Next(m, Begin(d)))
  {
    hide Rows;
    assert rows[n..] == rows;
  }

  lemma DrainsNext(m: Machine, d: nat, rows: seq<Row>, n: nat, up: nat -> bool, m1: Machine)
    requires 0 < n <= |rows| && DrainedBy(m, d, rows, n - 1, up, m1)
    ensures var m2 := Next(m1, Send(d, up(n - 1)));
      DrainedBy(m, d, rows, n, up, if rows[n - 1].status == Published then m2 else Next(m2, Record(d)))
  {
    hide Visit, Next;
    assert rows[n - 1..][0] == rows[n - 1] && rows[n - 1..][1..] == rows[n..];
    OneRow(m1, d, rows[n - 1..], up(n - 1));
  }

  lemma RowSteps(m: Machine, d: nat, rows: seq<Row>, n: nat, up: nat -> bool)
    requires 0 < n <= |rows|
    ensures var m1 := Next(After(m, DrainOf(d, rows, n - 1, up)), Send(d, up(n - 1)));
      After(m, DrainOf(d, rows, n, up)) == if rows[n - 1].status == Published then m1 else Next(m1, Record(d))
  {
    hide Next, After;
    var front := DrainOf(d, rows, n - 1, up);
    AfterNext(m, front, Send(d, up(n - 1)));
    AfterNext(m, front + [Send(d, up(n - 1))], Record(d));
    assert front + [Send(d, up(n - 1))] + [] == front + [Send(d, up(n - 1))];
  }

  lemma OneRow(m: Machine, d: nat, rest: seq<Row>, up: bool)
    requires d in m.drains && rest != [] && m.drains[d] == Drain(rest, Ready)
    ensures var m1 := Next(m, Send(d, up)); var m' := if rest[0].status == Published then m1 else Next(m1, Record(d));
      && (m'.log, m'.bus) == Visit(m.log, m.bus, rest[0], up) && m'.number == m.number && m'.appended == m.appended
      && d in m'.drains && m'.drains[d] == Drain(rest[1..], Ready)
  {
    hide MarkedLog, Deliver;
  }

  /** Replaying a row puts it back to waiting, with the attempts given. */
  lemma ReplayWaits(m: Machine, n: nat, attempts: nat)
    requires Latest(m.log, n).Some?
    ensures Latest(Next(m, Replay(n, attempts)).log, n)
         == Some(Latest(m.log, n).value.(status := Pending, attempts := attempts))
  {
    MarkedLatest(m.log, n, Pending, attempts, n);
  }
}
