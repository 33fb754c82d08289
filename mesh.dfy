/** The flood of one peer line through the mesh: every server runs the
    handler of `Requests` on the copies that reach it, and each copy it
    accepts is passed on to its neighbours by `propagate_message`. The
    order of arrivals is a parameter (a schedule), so the properties hold
    for every interleaving. */
module Mesh {
  import opened Outcomes
  import opened Text
  import opened Numbers
  import opened Validation
  import opened Topology
  import opened Requests

  /** The stores of all servers and the copies of the line still in flight,
      one element per copy, by destination. */
  datatype Flood = Flood(stores: map<string, map<string, string>>, pending: multiset<string>)

  /** One copy reaching `dest`, whose handler sees `world`. */
  datatype Arrival = Arrival(dest: string, world: World)

  predicate Wf(f: Flood) {
    f.stores.Keys == Nodes && forall n :: n in f.pending ==> n in Nodes
  }

  /** `store` has `line` as the entry of the client the line is about. */
  predicate Holds(store: map<string, string>, line: string)
    requires IsPeerLine(line)
  {
    ClientOf(line) in store && store[ClientOf(line)] == line
  }

  /** The destinations of the attempts that got through. */
  function Delivered(sends: seq<Attempt>): multiset<string> {
    if sends == [] then multiset{}
    else (if sends[0].ok then multiset{sends[0].to} else multiset{}) + Delivered(sends[1..])
  }

  /** One flood from `ns` puts no more copies in flight than `ns` has
      entries, only to listed servers that are up, and one to every
      neighbour that is up (at most one per server: `FloodCopiesOnce`). */
  lemma FanoutDelivered(ns: seq<string>, line: string, up: set<string>)
    ensures |Delivered(Fanout(ns, line, up))| <= |ns|
    ensures forall n :: n in Delivered(Fanout(ns, line, up)) ==> n in ns && n in Ports && n in up
    ensures forall k :: 0 <= k < |ns| && ns[k] in Ports && ns[k] in up ==>
      ns[k] in Delivered(Fanout(ns, line, up))
  {
    DeliveredSize(Fanout(ns, line, up));
    DeliveredTargets(ns, line, up);
    DeliveredReached(ns, line, up);
  }

  /** No server is listed twice. */
  predicate Distinct(ns: seq<string>) {
    forall j, k :: 0 <= j < k < |ns| ==> ns[j] != ns[k]
  }

  /** A list without repetitions gets at most one copy per server. */
  lemma {:induction false} DeliveredOnce(ns: seq<string>, line: string, up: set<string>)
    requires Distinct(ns)
    ensures forall n :: Delivered(Fanout(ns, line, up))[n] <= 1
    decreases |ns|
  {
    if ns != [] {
      var tail := ns[1..];
      assert Distinct(tail) by {
        forall j, k | 0 <= j < k < |tail|
          ensures tail[j] != tail[k]
        {
          assert tail[j] == ns[j + 1] && tail[k] == ns[k + 1];
        }
      }
      DeliveredOnce(tail, line, up);
      DeliveredTargets(tail, line, up);
      assert Fanout(ns, line, up)[1..] == Fanout(tail, line, up);
      assert ns[0] !in tail by {
        forall k | 0 <= k < |tail|
          ensures tail[k] != ns[0]
        {
          assert tail[k] == ns[k + 1];
        }
      }
    }
  }

  /** No neighbour list of the mesh repeats a server, so a flood from any
      server puts at most one copy in flight to each server. */
  lemma FloodCopiesOnce(n: string, line: string, up: set<string>)
    requires n in Neighbours
    ensures forall m :: Delivered(Fanout(Neighbours[n], line, up))[m] <= 1
  {
    TablesAgree();
    DeliveredOnce(Neighbours[n], line, up);
  }

  lemma {:induction false} DeliveredSize(sends: seq<Attempt>)
    ensures |Delivered(sends)| <= |sends|
    decreases |sends|
  {
    if sends != [] {
      DeliveredSize(sends[1..]);
    }
  }

  lemma {:induction false} DeliveredTargets(ns: seq<string>, line: string, up: set<string>)
    ensures forall n :: n in Delivered(Fanout(ns, line, up)) ==> n in ns && Reaches(n, up)
    decreases |ns|
  {
    if ns != [] {
      DeliveredTargets(ns[1..], line, up);
      assert Fanout(ns, line, up)[1..] == Fanout(ns[1..], line, up);
      assert forall n :: n in ns[1..] ==> n in ns;
    }
  }

  lemma {:induction false} DeliveredReached(ns: seq<string>, line: string, up: set<string>)
    ensures forall k :: 0 <= k < |ns| && Reaches(ns[k], up) ==> ns[k] in Delivered(Fanout(ns, line, up))
    decreases |ns|
  {
    if ns != [] {
      DeliveredReached(ns[1..], line, up);
      assert Fanout(ns, line, up)[1..] == Fanout(ns[1..], line, up);
      assert forall k :: 1 <= k < |ns| ==> ns[k] == ns[1..][k - 1];
    }
  }

  /** The copy for `a.dest` arrives: its handler runs on the line. A raise
      consumes the copy; otherwise the server's store becomes the handler's
      and the attempts that got through put new copies in flight. */
  function Deliver(f: Flood, line: string, num: Numerals, a: Arrival): Flood
    requires Wf(f) && a.dest in f.pending
  {
    HasNeighbours(a.dest);
    var rest := f.pending - multiset{a.dest};
    match Step(a.dest, num, f.stores[a.dest], line, a.world)
    case Raises => Flood(f.stores, rest)
    case Returns(rep) => Flood(f.stores[a.dest := rep.store], rest + Delivered(rep.sends))
  }

  /** The servers that do not hold the line yet. */
  function NotHolding(f: Flood, line: string): set<string>
    requires IsPeerLine(line)
  {
    set n | n in f.stores && !Holds(f.stores[n], line)
  }

  /** Each acceptance costs one server from `NotHolding` and adds at most
      `MaxDegree` copies; each arrival consumes one copy. */
  function Measure(f: Flood, line: string): nat
    requires IsPeerLine(line)
  {
    (MaxDegree + 1) * |NotHolding(f, line)| + |f.pending|
  }

  /** A peer line either is dropped (raise or rejection, nothing sent), or
      is stored under its client and flooded; the latter only when it was
      not stored already, and always when the client is unknown. */
  lemma PeerCases(name: string, num: Numerals, store: map<string, string>, line: string, world: World)
    requires name in Neighbours && IsPeerLine(line)
    ensures Step(name, num, store, line, world).Raises? ||
      Step(name, num, store, line, world) == Returns(Reply(store, "", [])) ||
      (!Holds(store, line) &&
       Step(name, num, store, line, world) ==
         Returns(Reply(store[ClientOf(line) := line], "", Fanout(Neighbours[name], line, world.up))))
  {
    PeerUpdateRule(name, num, store, line, world);
    if Holds(store, line) {
      RedeliveryDropped(name, num, store, line, world);
    }
  }

  /** An arrival either only consumes its copy, or stores the line at a
      destination that did not hold it and puts copies in flight to the
      neighbours that were reached. */
  lemma DeliverCases(f: Flood, line: string, num: Numerals, a: Arrival)
    requires Wf(f) && IsPeerLine(line) && a.dest in f.pending
    ensures a.dest in Neighbours
    ensures Deliver(f, line, num, a) == Flood(f.stores, f.pending - multiset{a.dest}) ||
      (!Holds(f.stores[a.dest], line) &&
       Deliver(f, line, num, a) ==
         Flood(f.stores[a.dest := f.stores[a.dest][ClientOf(line) := line]],
               (f.pending - multiset{a.dest}) + Delivered(Fanout(Neighbours[a.dest], line, a.world.up))))
  {
    HasNeighbours(a.dest);
    var st := f.stores[a.dest];
    PeerCases(a.dest, num, st, line, a.world);
    if Step(a.dest, num, st, line, a.world) == Returns(Reply(st, "", [])) {
      assert f.stores[a.dest := st] == f.stores;
      assert (f.pending - multiset{a.dest}) + Delivered([]) == f.pending - multiset{a.dest};
    }
  }

  /** One arrival keeps the state well formed, changes only the
      destination's store, never undoes a server holding the line, and
      changes the destination's store only by storing the line there. */
  lemma DeliverFrame(f: Flood, line: string, num: Numerals, a: Arrival)
    requires Wf(f) && IsPeerLine(line) && a.dest in f.pending
    ensures Wf(Deliver(f, line, num, a))
    ensures forall n :: n in f.stores && n != a.dest ==> Deliver(f, line, num, a).stores[n] == f.stores[n]
    ensures forall n :: n in f.stores && Holds(f.stores[n], line) ==> Deliver(f, line, num, a).stores[n] == f.stores[n]
    ensures Deliver(f, line, num, a).stores[a.dest] == f.stores[a.dest] ||
      (!Holds(f.stores[a.dest], line) &&
       Deliver(f, line, num, a).stores[a.dest] == f.stores[a.dest][ClientOf(line) := line])
  {
    DeliverCases(f, line, num, a);
    if Deliver(f, line, num, a) != Flood(f.stores, f.pending - multiset{a.dest}) {
      var sent := Delivered(Fanout(Neighbours[a.dest], line, a.world.up));
      FanoutDelivered(Neighbours[a.dest], line, a.world.up);
      AcceptFrame(f, line, a.dest, sent);
    }
  }

  /** Storing the line at a server that lacked it and putting copies in
      flight to servers of the mesh keeps the state well formed and changes
      no other store. */
  lemma AcceptFrame(f: Flood, line: string, d: string, sent: multiset<string>)
    requires Wf(f) && IsPeerLine(line) && d in f.pending && !Holds(f.stores[d], line)
    requires forall n :: n in sent ==> n in Ports
    ensures Wf(Flood(f.stores[d := f.stores[d][ClientOf(line) := line]], (f.pending - multiset{d}) + sent))
    ensures forall n :: n in f.stores && n != d ==> f.stores[d := f.stores[d][ClientOf(line) := line]][n] == f.stores[n]
  {
  }

  /** One arrival decreases the measure. */
  lemma DeliverMeasure(f: Flood, line: string, num: Numerals, a: Arrival)
    requires Wf(f) && IsPeerLine(line) && a.dest in f.pending
    ensures Measure(Deliver(f, line, num, a), line) < Measure(f, line)
  {
    HasNeighbours(a.dest);
    DeliverCases(f, line, num, a);
    if Deliver(f, line, num, a) != Flood(f.stores, f.pending - multiset{a.dest}) {
      FanoutDelivered(Neighbours[a.dest], line, a.world.up);
      AcceptMeasure(f, line, a.dest, Delivered(Fanout(Neighbours[a.dest], line, a.world.up)));
    }
  }

  /** Storing the line at a server that lacked it, consuming its copy and
      adding at most `MaxDegree` copies, decreases the measure. */
  lemma AcceptMeasure(f: Flood, line: string, d: string, sent: multiset<string>)
    requires IsPeerLine(line) && d in f.pending && d in f.stores && !Holds(f.stores[d], line)
    requires |sent| <= MaxDegree
    ensures Measure(Flood(f.stores[d := f.stores[d][ClientOf(line) := line]], (f.pending - multiset{d}) + sent), line)
      < Measure(f, line)
  {
    var g := Flood(f.stores[d := f.stores[d][ClientOf(line) := line]], (f.pending - multiset{d}) + sent);
    assert Holds(g.stores[d], line);
    assert NotHolding(g, line) == NotHolding(f, line) - {d};
    assert |g.pending| == |f.pending| - 1 + |sent|;
  }

  /** Both of the above. */
  lemma DeliverProgress(f: Flood, line: string, num: Numerals, a: Arrival)
    requires Wf(f) && IsPeerLine(line) && a.dest in f.pending
    ensures Wf(Deliver(f, line, num, a))
    ensures Measure(Deliver(f, line, num, a), line) < Measure(f, line)
    ensures forall n :: n in f.stores && n != a.dest ==> Deliver(f, line, num, a).stores[n] == f.stores[n]
    ensures forall n :: n in f.stores && Holds(f.stores[n], line) ==> Deliver(f, line, num, a).stores[n] == f.stores[n]
    ensures Deliver(f, line, num, a).stores[a.dest] == f.stores[a.dest] ||
      (!Holds(f.stores[a.dest], line) &&
       Deliver(f, line, num, a).stores[a.dest] == f.stores[a.dest][ClientOf(line) := line])
  {
    DeliverFrame(f, line, num, a);
    DeliverMeasure(f, line, num, a);
  }

  /** The state after the arrivals of `schedule` in order, or `None` when
      one of them is not in flight at its turn. */
  function Replay(f: Flood, line: string, num: Numerals, schedule: seq<Arrival>): (r: Option<Flood>)
    requires Wf(f) && IsPeerLine(line)
    ensures r.Some? ==> Wf(r.value)
    decreases |schedule|
  {
    if schedule == [] then Some(f)
    else if schedule[0].dest !in f.pending then None
    else
      DeliverProgress(f, line, num, schedule[0]);
      Replay(Deliver(f, line, num, schedule[0]), line, num, schedule[1..])
  }

  /** The flood terminates: no interleaving has more arrivals than the
      measure of the starting state. */
  lemma {:induction false} ReplayBounded(f: Flood, line: string, num: Numerals, schedule: seq<Arrival>)
    requires Wf(f) && IsPeerLine(line)
    ensures Replay(f, line, num, schedule).Some? ==> |schedule| <= Measure(f, line)
    decreases |schedule|
  {
    if schedule != [] && schedule[0].dest in f.pending {
      DeliverProgress(f, line, num, schedule[0]);
      ReplayBounded(Deliver(f, line, num, schedule[0]), line, num, schedule[1..]);
    }
  }

  /** How many arrivals of `schedule` change the store of server `n`. */
  function Acceptances(f: Flood, line: string, num: Numerals, schedule: seq<Arrival>, n: string): nat
    requires Wf(f) && IsPeerLine(line) && n in Nodes
    decreases |schedule|
  {
    if schedule == [] || schedule[0].dest !in f.pending then 0
    else
      DeliverProgress(f, line, num, schedule[0]);
      var g := Deliver(f, line, num, schedule[0]);
      (if g.stores[n] != f.stores[n] then 1 else 0) + Acceptances(g, line, num, schedule[1..], n)
  }

  /** Every server accepts the line at most once, and not at all when it
      holds it already: a flood never loops. */
  lemma {:induction false} AcceptsAtMostOnce(f: Flood, line: string, num: Numerals, schedule: seq<Arrival>, n: string)
    requires Wf(f) && IsPeerLine(line) && n in Nodes
    ensures Acceptances(f, line, num, schedule, n) <= if Holds(f.stores[n], line) then 0 else 1
    decreases |schedule|
  {
    if schedule != [] && schedule[0].dest in f.pending {
      DeliverProgress(f, line, num, schedule[0]);
      var g := Deliver(f, line, num, schedule[0]);
      AcceptsAtMostOnce(g, line, num, schedule[1..], n);
      if g.stores[n] != f.stores[n] {
        assert Holds(g.stores[n], line);
      }
    }
  }

  /** What `AcceptsAtMostOnce` owes to the flood having no other events: a
      direct `IAMAT` for the same client whose timestamp is older than the
      line's overwrites a store that holds the line (server.py:82), and the
      line, arriving again, is then accepted and flooded a second time. */
  lemma RegistrationReopens(name: string, num: Numerals, store: map<string, string>, line: string,
                            message: string, inputs: seq<string>, world: World, later: World)
    requires name in Neighbours && IsPeerLine(line) && Holds(store, line)
    requires inputs == Split(message) && |inputs| == 4 && inputs[0] == "IAMAT"
    requires IsValidIamat(num, inputs[2], inputs[3]) == Returns(true) && inputs[1] == ClientOf(line)
    requires num.parseFloat(Split(line)[5]).Some?
    requires num.parseFloat(inputs[3]).Some? && num.parseFloat(inputs[3]).value < num.parseFloat(Split(line)[5]).value
    ensures Step(name, num, store, message, world).Returns?
    ensures !Holds(Step(name, num, store, message, world).value.store, line)
    ensures Step(name, num, Step(name, num, store, message, world).value.store, line, later) ==
      Returns(Reply(Step(name, num, store, message, world).value.store[ClientOf(line) := line], "",
                    Fanout(Neighbours[name], line, later.up)))
  {
    var t0 := num.parseFloat(inputs[3]).value;
    var diff := world.now - t0;
    RegistrationReply(name, num, store, message, inputs, world);
    SplitTokens(message);
    var ack := Acknowledgement(name, num, inputs, diff);
    AcknowledgementTimestamp(name, num, inputs, diff);
    ReacceptsOverOlder(name, num, store[inputs[1] := ack], line, ack, t0, later);
  }

  /** A store whose entry for the line's client is another line with an
      older timestamp accepts the line and floods it. */
  lemma ReacceptsOverOlder(name: string, num: Numerals, store: map<string, string>, line: string,
                           prior: string, t0: real, later: World)
    requires name in Neighbours && IsPeerLine(line)
    requires ClientOf(line) in store && store[ClientOf(line)] == prior
    requires StoredTimestamp(num, prior) == Returns(t0)
    requires num.parseFloat(Split(line)[5]).Some? && t0 < num.parseFloat(Split(line)[5]).value
    ensures !Holds(store, line)
    ensures Step(name, num, store, line, later) ==
      Returns(Reply(store[ClientOf(line) := line], "", Fanout(Neighbours[name], line, later.up)))
  {
    PeerUpdateRule(name, num, store, line, later);
  }

  /** `store` will accept `line`: it holds it already, knows nothing of the
      client, or holds a line with an earlier numeric timestamp. */
  predicate Supersedes(num: Numerals, store: map<string, string>, line: string)
    requires IsPeerLine(line)
  {
    var id := ClientOf(line);
    var t := num.parseFloat(Split(line)[5]);
    id !in store || store[id] == line ||
    (t.Some? && StoredTimestamp(num, store[id]).Returns? && StoredTimestamp(num, store[id]).value < t.value)
  }

  /** Every server would accept the line. */
  predicate Fresh(f: Flood, line: string, num: Numerals)
    requires IsPeerLine(line)
  {
    forall n :: n in f.stores ==> Supersedes(num, f.stores[n], line)
  }

  /** Along `links`, every neighbour of a server that holds the line holds
      it too or has a copy in flight. (The mesh uses `Neighbours` for
      `links`; the lemmas that only move copies around take it as a
      parameter.) */
  predicate Closed(f: Flood, line: string, links: map<string, seq<string>>)
    requires IsPeerLine(line)
  {
    forall n, m :: n in f.stores && Holds(f.stores[n], line) && n in links && m in links[n] ==>
      m in f.pending || (m in f.stores && Holds(f.stores[m], line))
  }

  /** Every arrival of `schedule` happens while every server is up. */
  predicate AllUp(schedule: seq<Arrival>) {
    forall k :: 0 <= k < |schedule| ==> Nodes <= schedule[k].world.up
  }

  /** With every server up, an arrival keeps the flood fresh and closed, and
      its destination holds the line afterwards. */
  lemma DeliverKeepsClosed(f: Flood, line: string, num: Numerals, a: Arrival)
    requires Wf(f) && IsPeerLine(line) && a.dest in f.pending
    requires Fresh(f, line, num) && Closed(f, line, Neighbours) && Nodes <= a.world.up
    ensures Fresh(Deliver(f, line, num, a), line, num)
    ensures Closed(Deliver(f, line, num, a), line, Neighbours)
    ensures Holds(Deliver(f, line, num, a).stores[a.dest], line)
  {
    HasNeighbours(a.dest);
    var d := a.dest;
    if Holds(f.stores[d], line) {
      DeliverCases(f, line, num, a);
      DropKeepsClosed(f, line, d, Neighbours);
    } else {
      DeliverAccepts(f, line, num, a);
      var ns := Neighbours[d];
      var sent := Delivered(Fanout(ns, line, a.world.up));
      FanoutDelivered(ns, line, a.world.up);
      AcceptKeepsClosed(f, line, num, d, sent, Neighbours);
    }
  }

  /** A server that would accept the line and does not hold it accepts it. */
  lemma DeliverAccepts(f: Flood, line: string, num: Numerals, a: Arrival)
    requires Wf(f) && IsPeerLine(line) && a.dest in f.pending
    requires !Holds(f.stores[a.dest], line) && Supersedes(num, f.stores[a.dest], line)
    ensures a.dest in Neighbours
    ensures Deliver(f, line, num, a) ==
      Flood(f.stores[a.dest := f.stores[a.dest][ClientOf(line) := line]],
            (f.pending - multiset{a.dest}) + Delivered(Fanout(Neighbours[a.dest], line, a.world.up)))
  {
    HasNeighbours(a.dest);
    PeerUpdateRule(a.dest, num, f.stores[a.dest], line, a.world);
  }

  /** Consuming a copy sent to a server that holds the line keeps the flood
      closed. */
  lemma DropKeepsClosed(f: Flood, line: string, d: string, links: map<string, seq<string>>)
    requires IsPeerLine(line) && d in f.stores && Holds(f.stores[d], line) && Closed(f, line, links)
    ensures Closed(Flood(f.stores, f.pending - multiset{d}), line, links)
  {
    var g := Flood(f.stores, f.pending - multiset{d});
    forall n, m | n in g.stores && Holds(g.stores[n], line) && n in links && m in links[n]
      ensures m in g.pending || (m in g.stores && Holds(g.stores[m], line))
    {
      if m != d && m in f.pending {
        assert m in g.pending;
      }
    }
  }

  /** Storing the line at `d` and putting a copy in flight to each of its
      neighbours keeps the flood fresh and closed. */
  lemma AcceptKeepsClosed(f: Flood, line: string, num: Numerals, d: string, sent: multiset<string>,
                          links: map<string, seq<string>>)
    requires IsPeerLine(line) && d in f.stores && d in links && d in f.pending
    requires Fresh(f, line, num) && Closed(f, line, links)
    requires forall m :: m in links[d] ==> m in sent
    ensures Fresh(Flood(f.stores[d := f.stores[d][ClientOf(line) := line]], (f.pending - multiset{d}) + sent), line, num)
    ensures Closed(Flood(f.stores[d := f.stores[d][ClientOf(line) := line]], (f.pending - multiset{d}) + sent), line, links)
    ensures Holds(f.stores[d][ClientOf(line) := line], line)
  {
    var g := Flood(f.stores[d := f.stores[d][ClientOf(line) := line]], (f.pending - multiset{d}) + sent);
    assert forall m :: m in f.pending && m != d ==> m in g.pending;
    forall n, m | n in g.stores && Holds(g.stores[n], line) && n in links && m in links[n]
      ensures m in g.pending || (m in g.stores && Holds(g.stores[m], line))
    {
      if n != d {
        assert g.stores[n] == f.stores[n];
        if m != d && m !in f.pending {
          assert g.stores[m] == f.stores[m];
        }
      }
    }
    forall n | n in g.stores
      ensures Supersedes(num, g.stores[n], line)
    {
      if n != d {
        assert g.stores[n] == f.stores[n];
      }
    }
  }

  /** A closed flood with nothing in flight, in which some server holds the
      line, has every server holding it: the mesh is connected. */
  lemma AtRestEverywhere(f: Flood, line: string, origin: string)
    requires Wf(f) && IsPeerLine(line) && Closed(f, line, Neighbours) && f.pending == multiset{}
    requires origin in Nodes && Holds(f.stores[origin], line)
    ensures forall n :: n in Nodes ==> Holds(f.stores[n], line)
  {
    var s := set n | n in f.stores && Holds(f.stores[n], line);
    assert origin in s;
    Connected(s);
  }

  /** A fresh, closed flood in which some server holds the line, run while
      every server is up, ends with every server holding the line. */
  lemma {:induction false} Converges(f: Flood, line: string, num: Numerals, schedule: seq<Arrival>, origin: string)
    requires Wf(f) && IsPeerLine(line) && Fresh(f, line, num) && Closed(f, line, Neighbours) && AllUp(schedule)
    requires origin in Nodes && Holds(f.stores[origin], line)
    ensures (Replay(f, line, num, schedule).Some? && Replay(f, line, num, schedule).value.pending == multiset{}) ==>
      forall n :: n in Nodes ==> Holds(Replay(f, line, num, schedule).value.stores[n], line)
    decreases |schedule|
  {
    if schedule == [] {
      if f.pending == multiset{} {
        AtRestEverywhere(f, line, origin);
      }
    } else if schedule[0].dest in f.pending {
      DeliverFrame(f, line, num, schedule[0]);
      DeliverKeepsClosed(f, line, num, schedule[0]);
      AllUpTail(schedule);
      Converges(Deliver(f, line, num, schedule[0]), line, num, schedule[1..], origin);
    }
  }

  lemma AllUpTail(schedule: seq<Arrival>)
    requires schedule != [] && AllUp(schedule)
    ensures Nodes <= schedule[0].world.up && AllUp(schedule[1..])
  {
    assert forall k :: 0 <= k < |schedule| - 1 ==> schedule[1..][k] == schedule[k + 1];
  }

  /** The flood just after `origin` accepted `line`: its store has the line,
      and a copy is in flight to every neighbour that was reached. */
  function Seed(stores: map<string, map<string, string>>, origin: string, line: string, up: set<string>): (f: Flood)
    requires stores.Keys == Nodes && origin in Nodes && IsPeerLine(line)
    ensures Wf(f) && Holds(f.stores[origin], line)
  {
    HasNeighbours(origin);
    FanoutDelivered(Neighbours[origin], line, up);
    Flood(stores[origin := stores[origin][ClientOf(line) := line]],
          Delivered(Fanout(Neighbours[origin], line, up)))
  }

  /** The seed is fresh when every other server would accept the line. */
  lemma SeedFresh(stores: map<string, map<string, string>>, origin: string, line: string, num: Numerals, up: set<string>)
    requires stores.Keys == Nodes && origin in Nodes && IsPeerLine(line)
    requires forall n :: n in stores && n != origin ==> Supersedes(num, stores[n], line)
    ensures Fresh(Seed(stores, origin, line, up), line, num)
  {
    var f := Seed(stores, origin, line, up);
    forall n | n in f.stores
      ensures Supersedes(num, f.stores[n], line)
    {
      if n != origin {
        assert f.stores[n] == stores[n];
      }
    }
  }

  /** The seed is closed when every server is up and no other server holds
      the line yet. */
  lemma SeedIsClosed(stores: map<string, map<string, string>>, origin: string, line: string, up: set<string>)
    requires stores.Keys == Nodes && origin in Nodes && IsPeerLine(line) && Nodes <= up
    requires forall n :: n in stores && n != origin ==> !Holds(stores[n], line)
    ensures Closed(Seed(stores, origin, line, up), line, Neighbours)
  {
    HasNeighbours(origin);
    var ns := Neighbours[origin];
    FanoutDelivered(ns, line, up);
    var f := Seed(stores, origin, line, up);
    forall n | n in f.stores && n != origin
      ensures !Holds(f.stores[n], line)
    {
      assert f.stores[n] == stores[n];
    }
    SeedClosed(f, line, origin, Neighbours);
  }

  /** A flood in which only `origin` holds the line and every neighbour of
      it has a copy in flight is closed. */
  lemma SeedClosed(f: Flood, line: string, origin: string, links: map<string, seq<string>>)
    requires IsPeerLine(line) && origin in links
    requires forall n :: n in f.stores && n != origin ==> !Holds(f.stores[n], line)
    requires forall m :: m in links[origin] ==> m in f.pending
    ensures Closed(f, line, links)
  {
  }

  /** A registration accepted at `origin` starts exactly that seed: the
      acknowledgement is a peer line about the client, stored at the origin
      and sent to its neighbours. */
  lemma RegistrationSeeds(stores: map<string, map<string, string>>, origin: string, num: Numerals,
                          message: string, inputs: seq<string>, world: World)
    requires stores.Keys == Nodes && origin in Nodes && inputs == Split(message)
    requires |inputs| == 4 && inputs[0] == "IAMAT" && IsValidIamat(num, inputs[2], inputs[3]) == Returns(true)
    ensures origin in Neighbours && Step(origin, num, stores[origin], message, world).Returns?
    ensures IsPeerLine(Step(origin, num, stores[origin], message, world).value.response)
    ensures ClientOf(Step(origin, num, stores[origin], message, world).value.response) == inputs[1]
    ensures stores[origin := Step(origin, num, stores[origin], message, world).value.store] ==
      Seed(stores, origin, Step(origin, num, stores[origin], message, world).value.response, world.up).stores
    ensures Delivered(Step(origin, num, stores[origin], message, world).value.sends) ==
      Seed(stores, origin, Step(origin, num, stores[origin], message, world).value.response, world.up).pending
  {
    HasNeighbours(origin);
    var diff := world.now - num.parseFloat(inputs[3]).value;
    RegistrationReply(origin, num, stores[origin], message, inputs, world);
    SplitTokens(message);
    AcknowledgementIsPeerLine(origin, num, inputs, diff);
  }

  /** A location update that no other server holds yet and every other
      server would accept, flooded while every server is up, reaches every
      server once the copies in flight are all delivered, whatever their
      order; and the flood stops after a bounded number of arrivals. */
  lemma FloodReachesAll(stores: map<string, map<string, string>>, origin: string, line: string, num: Numerals,
                        up: set<string>, schedule: seq<Arrival>)
    requires stores.Keys == Nodes && origin in Nodes && IsPeerLine(line)
    requires forall n :: n in stores && n != origin ==> !Holds(stores[n], line) && Supersedes(num, stores[n], line)
    requires Nodes <= up && AllUp(schedule)
    ensures Replay(Seed(stores, origin, line, up), line, num, schedule).Some? ==>
      |schedule| <= Measure(Seed(stores, origin, line, up), line)
    ensures (Replay(Seed(stores, origin, line, up), line, num, schedule).Some? &&
             Replay(Seed(stores, origin, line, up), line, num, schedule).value.pending == multiset{}) ==>
      forall n :: n in Nodes ==> Holds(Replay(Seed(stores, origin, line, up), line, num, schedule).value.stores[n], line)
  {
    SeedFresh(stores, origin, line, num, up);
    SeedIsClosed(stores, origin, line, up);
    var f := Seed(stores, origin, line, up);
    ReplayBounded(f, line, num, schedule);
    Converges(f, line, num, schedule, origin);
  }
}
