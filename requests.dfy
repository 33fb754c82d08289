/** What one invocation of `handle_client_input` does, as a function of the
    server's name, its store and the message it read: the classification of
    the message, the store update of a peer `AT` or a registration, the
    answer to a query, and the propagation attempts. */
module Requests {
  import opened Outcomes
  import opened Text
  import opened Numbers
  import opened Topology
  import opened Validation
  import opened Places

  /** One delivery attempt of `propagate_message`: the neighbour, the text
      written to it, and whether connecting and writing succeeded. */
  datatype Attempt = Attempt(to: string, message: string, ok: bool)

  /** What a handler invocation depends on besides its message and the
      store: `time.time()`, the servers that accept connections, and the
      nearby-search service. */
  datatype World = World(now: real, up: set<string>, places: PlacesApi)

  /** A handler invocation that did not raise: the store afterwards, the
      response (written back only when it is not empty) and the propagation
      attempts made. */
  datatype Reply = Reply(store: map<string, string>, response: string, sends: seq<Attempt>)

  /** A connection to `to` succeeds: the lookup in `server_ports` does not
      raise and the server is up. */
  predicate Reaches(to: string, up: set<string>) {
    to in Ports && to in up
  }

  /** The attempts of `propagate_message` over the neighbour list `ns`. */
  function Fanout(ns: seq<string>, message: string, up: set<string>): (r: seq<Attempt>)
    ensures |r| == |ns|
    ensures forall k :: 0 <= k < |ns| ==> r[k] == Attempt(ns[k], message, Reaches(ns[k], up))
  {
    if ns == [] then []
    else [Attempt(ns[0], message, Reaches(ns[0], up))] + Fanout(ns[1..], message, up)
  }

  /** `float(self.clients[id].split()[5])`: the timestamp of a stored line. */
  function StoredTimestamp(num: Numerals, line: string): Outcome<real>
  {
    var toks := Split(line);
    if |toks| < 6 then Raises
    else match num.parseFloat(toks[5])
      case None => Raises
      case Some(t) => Returns(t)
  }

  /** The peer-update branch (server.py:54-67) for `[AT, origin, skew, id,
      coordinate, timestamp]`. */
  function PeerUpdate(name: string, num: Numerals, clients: map<string, string>,
                      message: string, inputs: seq<string>, up: set<string>): Outcome<Reply>
    requires name in Neighbours && |inputs| == 6
  {
    var id := inputs[3];
    var accepted := Reply(clients[id := message], "", Fanout(Neighbours[name], message, up));
    if id !in clients then Returns(accepted)
    else match num.parseFloat(inputs[5])
      case None => Raises
      case Some(tNew) =>
        match StoredTimestamp(num, clients[id])
        case Raises => Raises
        case Returns(tOld) =>
          if tNew > tOld then Returns(accepted) else Returns(Reply(clients, "", []))
  }

  /** The skew as the registration acknowledgement writes it: a `+` is
      prepended only to a positive difference. */
  function Skew(num: Numerals, diff: real): string {
    (if diff > 0.0 then "+" else "") + num.show(diff)
  }

  /** The canonical line `AT <server> <skew> <id> <coordinate> <timestamp>`:
      the six fields joined by single spaces, as the f-string writes them. */
  function CanonicalLine(name: string, skew: string, id: string, coord: string, ts: string): string {
    JoinSpaced(["AT", name, skew, id, coord, ts])
  }

  /** The acknowledgement of `[IAMAT, id, coordinate, timestamp]` when the
      clock is `diff` ahead of the timestamp. */
  function Acknowledgement(name: string, num: Numerals, inputs: seq<string>, diff: real): string
    requires |inputs| == 4
  {
    CanonicalLine(name, Skew(num, diff), inputs[1], inputs[2], inputs[3])
  }

  /** The registration branch (server.py:72-87) for `[IAMAT, id, coordinate,
      timestamp]`. */
  function Registration(name: string, num: Numerals, clients: map<string, string>,
                        message: string, inputs: seq<string>, world: World): Outcome<Reply>
    requires name in Neighbours && |inputs| == 4
  {
    match IsValidIamat(num, inputs[2], inputs[3])
    case Raises => Raises
    case Returns(false) => Returns(Reply(clients, "? " + message, []))
    case Returns(true) =>
      match num.parseFloat(inputs[3])
      case None => Raises
      case Some(ts) =>
        var line := Acknowledgement(name, num, inputs, world.now - ts);
        Returns(Reply(clients[inputs[1] := line], line, Fanout(Neighbours[name], line, world.up)))
  }

  /** The query branch (server.py:90-99) for `[WHATSAT, id, radius, bound]`. */
  function Query(num: Numerals, clients: map<string, string>, message: string,
                 inputs: seq<string>, places: PlacesApi): Outcome<Reply>
    requires |inputs| == 4
  {
    match IsValidWhatsat(num, clients, inputs)
    case Raises => Raises
    case Returns(false) => Returns(Reply(clients, "? " + message, []))
    case Returns(true) =>
      var line := clients[inputs[1]];
      var toks := Split(line);
      if |toks| < 5 then Raises
      else match GetPlaces(places, num, toks[4], inputs[2], inputs[3])
        case Raises => Raises
        case Returns(payload) =>
          Returns(Reply(clients, line + "\n" + RStripNewlines(payload) + "\n\n", []))
  }

  /** `handle_client_input` on one message (server.py:49-103). */
  function Step(name: string, num: Numerals, clients: map<string, string>,
                message: string, world: World): Outcome<Reply>
    requires name in Neighbours
  {
    var inputs := Split(message);
    if |inputs| != 4 then
      if |inputs| == 6 && inputs[0] == "AT" then PeerUpdate(name, num, clients, message, inputs, world.up)
      else Returns(Reply(clients, "? " + message, []))
    else if inputs[0] == "IAMAT" then Registration(name, num, clients, message, inputs, world)
    else if inputs[0] == "WHATSAT" then Query(num, clients, message, inputs, world.places)
    else Returns(Reply(clients, "? " + message, []))
  }

  /** What the handler writes back on the connection (server.py:106-109). */
  function Written(r: Outcome<Reply>): Option<string> {
    if r.Returns? && r.value.response != "" then Some(r.value.response) else None
  }

  /** A six-token line starting with `AT`: what the server handles as a peer update. */
  predicate IsPeerLine(line: string) {
    |Split(line)| == 6 && Split(line)[0] == "AT"
  }

  /** The client id a peer line is about. */
  function ClientOf(line: string): string
    requires IsPeerLine(line)
  {
    Split(line)[3]
  }

  /** The invariant of `self.clients`: every stored line is a peer line about
      the client it is stored under. */
  predicate StoreWf(clients: map<string, string>) {
    forall id :: id in clients ==> IsPeerLine(clients[id]) && ClientOf(clients[id]) == id
  }

  // ---------------------------------------------------------------------
  // Properties of the handler

  /** The three branches of `Step`. */
  lemma StepIsPeerUpdate(name: string, num: Numerals, clients: map<string, string>, message: string, world: World)
    requires name in Neighbours && IsPeerLine(message)
    ensures Step(name, num, clients, message, world) ==
      PeerUpdate(name, num, clients, message, Split(message), world.up)
  {
  }

  lemma StepIsRegistration(name: string, num: Numerals, clients: map<string, string>, message: string, world: World)
    requires name in Neighbours
    requires |Split(message)| == 4 && Split(message)[0] == "IAMAT"
    ensures Step(name, num, clients, message, world) ==
      Registration(name, num, clients, message, Split(message), world)
  {
  }

  lemma StepIsQuery(name: string, num: Numerals, clients: map<string, string>, message: string, world: World)
    requires name in Neighbours
    requires |Split(message)| == 4 && Split(message)[0] == "WHATSAT"
    ensures Step(name, num, clients, message, world) ==
      Query(num, clients, message, Split(message), world.places)
  {
  }

  /** A message that is neither a six-token `AT` line nor a four-token
      `IAMAT` or `WHATSAT` command is answered with `"? " + message` and
      changes nothing. */
  lemma Unrecognised(name: string, num: Numerals, clients: map<string, string>, message: string,
                     inputs: seq<string>, world: World)
    requires name in Neighbours && inputs == Split(message)
    requires !(|inputs| == 6 && inputs[0] == "AT")
    requires !(|inputs| == 4 && (inputs[0] == "IAMAT" || inputs[0] == "WHATSAT"))
    ensures Step(name, num, clients, message, world) == Returns(Reply(clients, "? " + message, []))
  {
  }

  /** A peer update never gets a reply. */
  lemma PeerNeverReplies(name: string, num: Numerals, clients: map<string, string>, message: string, world: World)
    requires name in Neighbours && IsPeerLine(message)
    ensures Written(Step(name, num, clients, message, world)) == None
  {
    StepIsPeerUpdate(name, num, clients, message, world);
  }

  /** The acceptance rule for a peer update about client `id` with timestamp
      `t`: it is stored and flooded when `id` is unknown or when `t` exceeds
      the stored line's timestamp; otherwise nothing changes and nothing is
      sent. It raises only when `id` is known and one of the two timestamps
      is not a number. No other client's entry changes. */
  lemma PeerUpdateRule(name: string, num: Numerals, clients: map<string, string>, message: string, world: World)
    requires name in Neighbours && IsPeerLine(message)
    ensures var id := ClientOf(message);
      var tNew := num.parseFloat(Split(message)[5]);
      var accepted := Returns(Reply(clients[id := message], "", Fanout(Neighbours[name], message, world.up)));
      var rejected := Returns(Reply(clients, "", []));
      var r := Step(name, num, clients, message, world);
      && (id !in clients ==> r == accepted)
      && (id in clients ==>
            (r == Raises <==> tNew.None? || StoredTimestamp(num, clients[id]).Raises?))
      && (id in clients && tNew.Some? && StoredTimestamp(num, clients[id]).Returns? ==>
            r == if tNew.value > StoredTimestamp(num, clients[id]).value then accepted else rejected)
      && (r.Returns? ==> forall k :: k in clients && k != id ==> k in r.value.store && r.value.store[k] == clients[k])
  {
    StepIsPeerUpdate(name, num, clients, message, world);
    PeerUpdateValue(name, num, clients, message, Split(message), world.up);
  }

  /** `PeerUpdateRule` for the peer-update branch on its own. */
  lemma PeerUpdateValue(name: string, num: Numerals, clients: map<string, string>,
                        message: string, inputs: seq<string>, up: set<string>)
    requires name in Neighbours && |inputs| == 6
    ensures var id := inputs[3];
      var tNew := num.parseFloat(inputs[5]);
      var accepted := Returns(Reply(clients[id := message], "", Fanout(Neighbours[name], message, up)));
      var rejected := Returns(Reply(clients, "", []));
      var r := PeerUpdate(name, num, clients, message, inputs, up);
      && (id !in clients ==> r == accepted)
      && (id in clients ==>
            (r == Raises <==> tNew.None? || StoredTimestamp(num, clients[id]).Raises?))
      && (id in clients && tNew.Some? && StoredTimestamp(num, clients[id]).Returns? ==>
            r == if tNew.value > StoredTimestamp(num, clients[id]).value then accepted else rejected)
      && (r.Returns? ==> forall k :: k in clients && k != id ==> k in r.value.store && r.value.store[k] == clients[k])
  {
  }

  /** Re-delivering the stored line of a client, or any peer update whose
      timestamp is not above the stored one, sends nothing and leaves the
      store as it was (or raises, when the timestamp is not a number). */
  lemma RedeliveryDropped(name: string, num: Numerals, clients: map<string, string>, message: string, world: World)
    requires name in Neighbours && IsPeerLine(message)
    requires ClientOf(message) in clients
    requires clients[ClientOf(message)] == message ||
      (num.parseFloat(Split(message)[5]).Some? &&
       StoredTimestamp(num, clients[ClientOf(message)]).Returns? &&
       num.parseFloat(Split(message)[5]).value <= StoredTimestamp(num, clients[ClientOf(message)]).value)
    ensures Step(name, num, clients, message, world) == Raises ||
      Step(name, num, clients, message, world) == Returns(Reply(clients, "", []))
  {
    StepIsPeerUpdate(name, num, clients, message, world);
  }

  /** Re-delivering the stored line of a client, when its timestamp is a
      number, is a rejection: nothing is stored and nothing is sent. */
  lemma RedeliveryNumeric(name: string, num: Numerals, clients: map<string, string>, message: string, world: World)
    requires name in Neighbours && IsPeerLine(message)
    requires ClientOf(message) in clients && clients[ClientOf(message)] == message
    requires num.parseFloat(Split(message)[5]).Some?
    ensures Step(name, num, clients, message, world) == Returns(Reply(clients, "", []))
  {
    PeerUpdateRule(name, num, clients, message, world);
    assert StoredTimestamp(num, clients[ClientOf(message)]) == Returns(num.parseFloat(Split(message)[5]).value);
  }

  /** Once a peer line `m1` is stored for its client, a later peer update
      `m2` about the same client replaces it exactly when its timestamp is
      greater (both timestamps numeric); otherwise `m1` stays. */
  lemma PeerMonotonic(name: string, num: Numerals, clients: map<string, string>,
                      m1: string, m2: string, world: World)
    requires name in Neighbours && IsPeerLine(m1) && IsPeerLine(m2)
    requires ClientOf(m1) == ClientOf(m2) && ClientOf(m1) in clients && clients[ClientOf(m1)] == m1
    requires num.parseFloat(Split(m1)[5]).Some? && num.parseFloat(Split(m2)[5]).Some?
    ensures Step(name, num, clients, m2, world).Returns?
    ensures Step(name, num, clients, m2, world).value.store[ClientOf(m1)] ==
      if num.parseFloat(Split(m2)[5]).value > num.parseFloat(Split(m1)[5]).value then m2 else m1
  {
    PeerUpdateRule(name, num, clients, m2, world);
    assert StoredTimestamp(num, clients[ClientOf(m1)]) == Returns(num.parseFloat(Split(m1)[5]).value);
  }

  /** The canonical line splits back into its six fields. */
  lemma CanonicalLineTokens(name: string, skew: string, id: string, coord: string, ts: string)
    requires IsToken(name) && IsToken(skew) && IsToken(id) && IsToken(coord) && IsToken(ts)
    ensures Split(CanonicalLine(name, skew, id, coord, ts)) == ["AT", name, skew, id, coord, ts]
  {
    var ws := ["AT", name, skew, id, coord, ts];
    assert forall k :: 0 <= k < |ws| ==> IsToken(ws[k]);
    SplitJoinSpaced(ws);
  }

  /** The skew is one word, and starts with `+` exactly when the difference
      is positive. */
  lemma SkewIsToken(num: Numerals, diff: real)
    ensures IsToken(Skew(num, diff))
    ensures Skew(num, diff)[0] == '+' <==> diff > 0.0 || num.show(diff)[0] == '+'
  {
    assert IsToken(num.show(diff));
  }

  /** A valid registration at server `name` answers with the canonical line
      `AT name skew id coordinate timestamp`, where `skew` is `now - t`
      (see `SkewIsToken` for its sign); it stores that line under `id`
      whatever was stored before, newer or not, and floods the identical
      line. The line splits back into those six fields, so it is a peer line
      about `id` whose timestamp field is the registration's own text. */
  lemma RegistrationReply(name: string, num: Numerals, clients: map<string, string>,
                          message: string, inputs: seq<string>, world: World)
    requires name in Neighbours && inputs == Split(message)
    requires |inputs| == 4 && inputs[0] == "IAMAT" && IsValidIamat(num, inputs[2], inputs[3]) == Returns(true)
    ensures num.parseFloat(inputs[3]).Some?
    ensures Step(name, num, clients, message, world) ==
      Returns(Reply(clients[inputs[1] := Acknowledgement(name, num, inputs, world.now - num.parseFloat(inputs[3]).value)],
                    Acknowledgement(name, num, inputs, world.now - num.parseFloat(inputs[3]).value),
                    Fanout(Neighbours[name], Acknowledgement(name, num, inputs, world.now - num.parseFloat(inputs[3]).value), world.up)))
    ensures Split(Acknowledgement(name, num, inputs, world.now - num.parseFloat(inputs[3]).value)) ==
      ["AT", name, Skew(num, world.now - num.parseFloat(inputs[3]).value), inputs[1], inputs[2], inputs[3]]
  {
    StepIsRegistration(name, num, clients, message, world);
    RegistrationValue(name, num, clients, message, inputs, world);
    SplitTokens(message);
    AcknowledgementTokens(name, num, inputs, world.now - num.parseFloat(inputs[3]).value);
  }

  /** An `IAMAT` whose coordinate or time `isValidIMAT` rejects is answered
      with `"? " + message` and changes nothing; one on which it raises
      gets no answer. */
  lemma RegistrationRejected(name: string, num: Numerals, clients: map<string, string>,
                             message: string, inputs: seq<string>, world: World)
    requires name in Neighbours && inputs == Split(message)
    requires |inputs| == 4 && inputs[0] == "IAMAT"
    ensures IsValidIamat(num, inputs[2], inputs[3]) == Returns(false) ==>
      Step(name, num, clients, message, world) == Returns(Reply(clients, "? " + message, []))
    ensures IsValidIamat(num, inputs[2], inputs[3]) == Raises ==>
      Step(name, num, clients, message, world) == Raises
  {
    StepIsRegistration(name, num, clients, message, world);
    RegistrationValue(name, num, clients, message, inputs, world);
  }

  /** The registration branch in each outcome of `isValidIMAT`: a raise, the
      echo `"? " + message` with nothing changed, or the acknowledgement
      stored under the client, returned and flooded. */
  lemma RegistrationValue(name: string, num: Numerals, clients: map<string, string>,
                          message: string, inputs: seq<string>, world: World)
    requires name in Neighbours && |inputs| == 4
    ensures IsValidIamat(num, inputs[2], inputs[3]) == Raises ==>
      Registration(name, num, clients, message, inputs, world) == Raises
    ensures IsValidIamat(num, inputs[2], inputs[3]) == Returns(false) ==>
      Registration(name, num, clients, message, inputs, world) == Returns(Reply(clients, "? " + message, []))
    ensures IsValidIamat(num, inputs[2], inputs[3]) == Returns(true) ==>
      num.parseFloat(inputs[3]).Some? &&
      Registration(name, num, clients, message, inputs, world) ==
        Returns(Reply(clients[inputs[1] := Acknowledgement(name, num, inputs, world.now - num.parseFloat(inputs[3]).value)],
                      Acknowledgement(name, num, inputs, world.now - num.parseFloat(inputs[3]).value),
                      Fanout(Neighbours[name], Acknowledgement(name, num, inputs, world.now - num.parseFloat(inputs[3]).value), world.up)))
  {
  }

  /** The acknowledgement splits back into its six fields. */
  lemma AcknowledgementTokens(name: string, num: Numerals, inputs: seq<string>, diff: real)
    requires name in Neighbours && |inputs| == 4
    requires forall k :: 0 <= k < |inputs| ==> IsToken(inputs[k])
    ensures Split(Acknowledgement(name, num, inputs, diff)) ==
      ["AT", name, Skew(num, diff), inputs[1], inputs[2], inputs[3]]
  {
    NameIsToken(name);
    SkewIsToken(num, diff);
    CanonicalLineTokens(name, Skew(num, diff), inputs[1], inputs[2], inputs[3]);
  }

  /** The line a registration floods is dropped when it comes back to the
      server that produced it: nothing is stored and nothing is sent. */
  lemma EchoDropped(name: string, num: Numerals, clients: map<string, string>, message: string,
                    inputs: seq<string>, world: World, echo: World)
    requires name in Neighbours && inputs == Split(message)
    requires |inputs| == 4 && inputs[0] == "IAMAT" && IsValidIamat(num, inputs[2], inputs[3]) == Returns(true)
    ensures Step(name, num, clients, message, world).Returns?
    ensures Step(name, num, Step(name, num, clients, message, world).value.store,
                 Step(name, num, clients, message, world).value.response, echo) ==
      Returns(Reply(Step(name, num, clients, message, world).value.store, "", []))
  {
    var diff := world.now - num.parseFloat(inputs[3]).value;
    StepIsRegistration(name, num, clients, message, world);
    RegistrationValue(name, num, clients, message, inputs, world);
    SplitTokens(message);
    AcknowledgementIsPeerLine(name, num, inputs, diff);
    var r := Step(name, num, clients, message, world).value;
    assert IsPeerLine(r.response) && ClientOf(r.response) in r.store && r.store[ClientOf(r.response)] == r.response;
    assert num.parseFloat(Split(r.response)[5]).Some?;
    RedeliveryNumeric(name, num, r.store, r.response, echo);
  }

  /** A query is answered with the echo `"? " + message` whenever
      `isValidWHATSAT` rejects it, and gets no answer when it raises. So it
      is echoed when the client is unknown, when the radius or the bound is
      not a number, when the radius is an integer above 50, or when the radius
      passed and the bound is an integer above 20; a query changes no state
      and sends nothing; an answered query starts with the client's stored
      line and a newline, and ends with a blank line. A valid query raises
      exactly when the stored line lacks its coordinate field or the places
      call raises, and is otherwise answered with the stored line, the
      places found with trailing newlines removed, and a blank line. */
  lemma QueryRules(name: string, num: Numerals, clients: map<string, string>, message: string,
                   inputs: seq<string>, world: World)
    requires name in Neighbours && inputs == Split(message)
    requires |inputs| == 4 && inputs[0] == "WHATSAT"
    ensures var r := Step(name, num, clients, message, world);
      var echo := Returns(Reply(clients, "? " + message, []));
      && (IsValidWhatsat(num, clients, inputs) == Returns(false) ==> r == echo)
      && (IsValidWhatsat(num, clients, inputs) == Raises ==> r == Raises)
      && (inputs[1] !in clients ==> r == echo)
      && (num.parseInt(inputs[2]).Some? && num.parseInt(inputs[2]).value > 50 ==> r == echo)
      && (num.parseInt(inputs[3]).Some? && num.parseInt(inputs[3]).value > 20 ==>
            r == echo || (r == Raises && IsNumber(num, inputs[2]) && num.parseInt(inputs[2]).None?))
      && (r.Returns? ==> r.value.store == clients && r.value.sends == [])
      && (r.Returns? && r.value.response != "? " + message ==>
            inputs[1] in clients &&
            var line := clients[inputs[1]];
            var resp := r.value.response;
            |resp| >= |line| + 3 && resp[..|line| + 1] == line + "\n" && resp[|resp| - 2..] == "\n\n")
      && (IsValidWhatsat(num, clients, inputs) == Returns(true) ==>
            var line := clients[inputs[1]];
            (r.Raises? <==> (|Split(line)| < 5 ||
               GetPlaces(world.places, num, Split(line)[4], inputs[2], inputs[3]).Raises?)) &&
            (r.Returns? ==> (r.value.response ==
               line + "\n" + RStripNewlines(GetPlaces(world.places, num, Split(line)[4], inputs[2], inputs[3]).value) + "\n\n")))
  {
    StepIsQuery(name, num, clients, message, world);
    QueryOutcome(num, clients, message, inputs, world.places);
    if IsValidWhatsat(num, clients, inputs) == Returns(true) {
      QueryAnswer(num, clients, message, inputs, world.places);
    }
  }

  /** The rejections and the shape of an answer of `QueryRules`, for the
      query branch on its own. */
  lemma QueryOutcome(num: Numerals, clients: map<string, string>, message: string,
                     inputs: seq<string>, places: PlacesApi)
    requires |inputs| == 4
    ensures var r := Query(num, clients, message, inputs, places);
      var echo := Returns(Reply(clients, "? " + message, []));
      && (IsValidWhatsat(num, clients, inputs) == Returns(false) ==> r == echo)
      && (IsValidWhatsat(num, clients, inputs) == Raises ==> r == Raises)
      && (inputs[1] !in clients ==> r == echo)
      && (num.parseInt(inputs[2]).Some? && num.parseInt(inputs[2]).value > 50 ==> r == echo)
      && (num.parseInt(inputs[3]).Some? && num.parseInt(inputs[3]).value > 20 ==>
            r == echo || (r == Raises && IsNumber(num, inputs[2]) && num.parseInt(inputs[2]).None?))
      && (r.Returns? ==> r.value.store == clients && r.value.sends == [])
      && (r.Returns? && r.value.response != "? " + message ==>
            inputs[1] in clients &&
            var line := clients[inputs[1]];
            var resp := r.value.response;
            |resp| >= |line| + 3 && resp[..|line| + 1] == line + "\n" && resp[|resp| - 2..] == "\n\n")
  {
    WhatsatLimits(num, clients, inputs);
    var r := Query(num, clients, message, inputs, places);
    if r.Returns? && r.value.response != "? " + message {
      var line := clients[inputs[1]];
      var mid := RStripNewlines(GetPlaces(places, num, Split(line)[4], inputs[2], inputs[3]).value);
      assert r.value.response == (line + "\n") + (mid + "\n\n");
    }
  }

  /** The query branch on a valid query. */
  lemma QueryAnswer(num: Numerals, clients: map<string, string>, message: string,
                    inputs: seq<string>, places: PlacesApi)
    requires |inputs| == 4 && IsValidWhatsat(num, clients, inputs) == Returns(true)
    ensures var r := Query(num, clients, message, inputs, places);
      var line := clients[inputs[1]];
      (r.Raises? <==> (|Split(line)| < 5 ||
         GetPlaces(places, num, Split(line)[4], inputs[2], inputs[3]).Raises?)) &&
      (r.Returns? ==> (r.value.response ==
         line + "\n" + RStripNewlines(GetPlaces(places, num, Split(line)[4], inputs[2], inputs[3]).value) + "\n\n"))
  {
  }

  /** With the store invariant, a valid query never raises on the stored
      line's fields: it raises exactly when the places call does, and is
      otherwise answered with the stored line, the places found around its
      coordinate and a blank line, changing nothing. */
  lemma StoredQueryAnswered(name: string, num: Numerals, clients: map<string, string>, message: string,
                            inputs: seq<string>, world: World)
    requires name in Neighbours && inputs == Split(message) && StoreWf(clients)
    requires |inputs| == 4 && inputs[0] == "WHATSAT" && IsValidWhatsat(num, clients, inputs) == Returns(true)
    ensures inputs[1] in clients && |Split(clients[inputs[1]])| == 6
    ensures Step(name, num, clients, message, world).Raises? <==>
      (GetPlaces(world.places, num, Split(clients[inputs[1]])[4], inputs[2], inputs[3]).Raises?)
    ensures Step(name, num, clients, message, world).Returns? ==>
      (Step(name, num, clients, message, world).value ==
        Reply(clients, clients[inputs[1]] + "\n" +
              RStripNewlines(GetPlaces(world.places, num, Split(clients[inputs[1]])[4], inputs[2], inputs[3]).value) +
              "\n\n", []))
  {
    StoredLinesHaveFields(clients, inputs[1]);
    QueryRules(name, num, clients, message, inputs, world);
  }

  /** Every attempt goes to a configured neighbour of the server and carries
      the message that was stored (a peer update's own text, or a
      registration's acknowledgement); one attempt per neighbour, in order,
      or none at all. */
  lemma SendsStayInTopology(name: string, num: Numerals, clients: map<string, string>, message: string, world: World)
    requires name in Neighbours
    ensures var r := Step(name, num, clients, message, world);
      r.Returns? && r.value.sends != [] ==>
        var sent := if IsPeerLine(message) then message else r.value.response;
        r.value.sends == Fanout(Neighbours[name], sent, world.up) &&
        forall k :: 0 <= k < |r.value.sends| ==>
          r.value.sends[k].to in Neighbours[name] && r.value.sends[k].to in Ports &&
          r.value.sends[k].message == sent &&
          (r.value.sends[k].ok <==> r.value.sends[k].to in world.up)
  {
    TablesAgree();
  }

  /** Handling any message keeps the store invariant: every stored line stays
      a peer line about the client it is stored under. */
  lemma StepKeepsStoreWf(name: string, num: Numerals, clients: map<string, string>, message: string, world: World)
    requires name in Neighbours && StoreWf(clients)
    ensures Step(name, num, clients, message, world).Returns? ==>
      StoreWf(Step(name, num, clients, message, world).value.store)
  {
    var inputs := Split(message);
    if IsPeerLine(message) {
      StepIsPeerUpdate(name, num, clients, message, world);
      PeerUpdateKeepsStoreWf(name, num, clients, message, inputs, world.up);
    } else if |inputs| == 4 && inputs[0] == "IAMAT" {
      StepIsRegistration(name, num, clients, message, world);
      SplitTokens(message);
      RegistrationKeepsStoreWf(name, num, clients, message, inputs, world);
    } else if |inputs| == 4 && inputs[0] == "WHATSAT" {
      StepIsQuery(name, num, clients, message, world);
      QueryKeepsStore(num, clients, message, inputs, world.places);
    } else {
      Unrecognised(name, num, clients, message, inputs, world);
    }
  }

  lemma RegistrationKeepsStoreWf(name: string, num: Numerals, clients: map<string, string>,
                                 message: string, inputs: seq<string>, world: World)
    requires name in Neighbours && StoreWf(clients) && |inputs| == 4
    requires forall k :: 0 <= k < |inputs| ==> IsToken(inputs[k])
    ensures Registration(name, num, clients, message, inputs, world).Returns? ==>
      StoreWf(Registration(name, num, clients, message, inputs, world).value.store)
  {
    if IsValidIamat(num, inputs[2], inputs[3]) == Returns(true) {
      var line := Acknowledgement(name, num, inputs, world.now - num.parseFloat(inputs[3]).value);
      RegistrationValue(name, num, clients, message, inputs, world);
      AcknowledgementIsPeerLine(name, num, inputs, world.now - num.parseFloat(inputs[3]).value);
      StoreWfUpdate(clients, inputs[1], line);
    }
  }

  /** The acknowledgement is a peer line about the registering client, and
      its timestamp field is the registration's. */
  lemma AcknowledgementIsPeerLine(name: string, num: Numerals, inputs: seq<string>, diff: real)
    requires name in Neighbours && |inputs| == 4
    requires forall k :: 0 <= k < |inputs| ==> IsToken(inputs[k])
    ensures IsPeerLine(Acknowledgement(name, num, inputs, diff))
    ensures ClientOf(Acknowledgement(name, num, inputs, diff)) == inputs[1]
    ensures Split(Acknowledgement(name, num, inputs, diff))[5] == inputs[3]
  {
    AcknowledgementTokens(name, num, inputs, diff);
  }

  /** The acknowledgement's timestamp field is the registration's. */
  lemma AcknowledgementTimestamp(name: string, num: Numerals, inputs: seq<string>, diff: real)
    requires name in Neighbours && |inputs| == 4
    requires forall k :: 0 <= k < |inputs| ==> IsToken(inputs[k])
    requires num.parseFloat(inputs[3]).Some?
    ensures IsPeerLine(Acknowledgement(name, num, inputs, diff))
    ensures ClientOf(Acknowledgement(name, num, inputs, diff)) == inputs[1]
    ensures StoredTimestamp(num, Acknowledgement(name, num, inputs, diff)) == Returns(num.parseFloat(inputs[3]).value)
  {
    AcknowledgementIsPeerLine(name, num, inputs, diff);
  }

  /** Storing a peer line under its own client keeps the store invariant. */
  lemma StoreWfUpdate(clients: map<string, string>, id: string, line: string)
    requires StoreWf(clients) && IsPeerLine(line) && ClientOf(line) == id
    ensures StoreWf(clients[id := line])
  {
    var c := clients[id := line];
    forall k | k in c
      ensures IsPeerLine(c[k]) && ClientOf(c[k]) == k
    {
      if k != id {
        assert c[k] == clients[k];
      }
    }
  }

  /** A query never changes the store and never propagates. */
  lemma QueryKeepsStore(num: Numerals, clients: map<string, string>, message: string,
                        inputs: seq<string>, places: PlacesApi)
    requires |inputs| == 4
    ensures Query(num, clients, message, inputs, places).Returns? ==>
      Query(num, clients, message, inputs, places).value.store == clients &&
      Query(num, clients, message, inputs, places).value.sends == []
  {
  }

  lemma PeerUpdateKeepsStoreWf(name: string, num: Numerals, clients: map<string, string>,
                               message: string, inputs: seq<string>, up: set<string>)
    requires name in Neighbours && StoreWf(clients)
    requires IsPeerLine(message) && inputs == Split(message)
    ensures PeerUpdate(name, num, clients, message, inputs, up).Returns? ==>
      StoreWf(PeerUpdate(name, num, clients, message, inputs, up).value.store)
  {
    PeerUpdateStores(name, num, clients, message, inputs, up);
    StoreWfUpdate(clients, inputs[3], message);
  }

  /** A peer update either keeps the store or stores the message under its
      client id. */
  lemma PeerUpdateStores(name: string, num: Numerals, clients: map<string, string>,
                         message: string, inputs: seq<string>, up: set<string>)
    requires name in Neighbours && |inputs| == 6
    ensures PeerUpdate(name, num, clients, message, inputs, up).Returns? ==>
      PeerUpdate(name, num, clients, message, inputs, up).value.store in {clients, clients[inputs[3] := message]}
  {
  }

  /** With the store invariant, a stored line always has the field the
      query and the acceptance test read, so neither of those lookups raises. */
  lemma StoredLinesHaveFields(clients: map<string, string>, id: string)
    requires StoreWf(clients) && id in clients
    ensures |Split(clients[id])| == 6
  {
  }
}
