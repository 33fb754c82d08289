/** The `Server` object: its name, its store `self.clients`, the handler
    that updates the store in place, and the propagation loop. */
module Servers {
  import opened Outcomes
  import opened Text
  import opened Numbers
  import opened Topology
  import opened Validation
  import opened Places
  import opened Requests

  /** The response and the propagation attempts of a handler invocation
      that did not raise. */
  datatype Handled = Handled(response: string, sends: seq<Attempt>)

  /** `r` is what the handler returned and `after` the store it left, for a
      specification outcome `o` on the store `before`: a raise changes
      nothing; otherwise response, attempts and store are those of `o`. */
  ghost predicate Agrees(r: Outcome<Handled>, o: Outcome<Reply>, before: map<string, string>, after: map<string, string>) {
    match o
    case Raises => r.Raises? && after == before
    case Returns(rep) => r == Returns(Handled(rep.response, rep.sends)) && after == rep.store
  }

  class Server {
    const name: string
    const num: Numerals
    /** `self.clients`: client id to the raw `AT` line last accepted for it. */
    var clients: map<string, string>

    ghost predicate Valid()
      reads this
    {
      name in Neighbours && StoreWf(clients)
    }

    /** `Server(name)` as `main` creates it, for a name of `server_ports`. */
    constructor (name: string, num: Numerals)
      requires name in Ports
      ensures Valid() && this.name == name && this.num == num && clients == map[]
    {
      this.name := name;
      this.num := num;
      clients := map[];
      TablesAgree();
    }

    /** `propagate_message(server_name, message)`: one attempt per neighbour
        of `serverName`, in list order; a neighbour that fails is skipped. */
    method Propagate(serverName: string, message: string, up: set<string>) returns (sends: seq<Attempt>)
      requires serverName in Neighbours
      ensures sends == Fanout(Neighbours[serverName], message, up)
    {
      var ns := Neighbours[serverName];
      sends := [];
      for i := 0 to |ns|
        invariant |sends| == i
        invariant forall k :: 0 <= k < i ==> sends[k] == Attempt(ns[k], message, Reaches(ns[k], up))
      {
        var ok := ns[i] in Ports && ns[i] in up;
        sends := sends + [Attempt(ns[i], message, ok)];
      }
    }

    /** `handle_client_input` on the message read from one connection. It
        updates `clients` exactly as `Step` says, and raises exactly when
        `Step` does, leaving `clients` as it was. */
    method Handle(message: string, world: World) returns (r: Outcome<Handled>)
      requires Valid()
      modifies this
      ensures Valid()
      ensures Agrees(r, Step(name, num, old(clients), message, world), old(clients), clients)
    {
      StepKeepsStoreWf(name, num, clients, message, world);
      var inputs := Split(message);
      if |inputs| != 4 {
        if |inputs| == 6 && inputs[0] == "AT" {
          StepIsPeerUpdate(name, num, clients, message, world);
          r := HandleUpdate(message, inputs, world.up);
        } else {
          r := Returns(Handled("? " + message, []));
        }
      } else if inputs[0] == "IAMAT" {
        StepIsRegistration(name, num, clients, message, world);
        r := HandleRegistration(message, inputs, world);
      } else if inputs[0] == "WHATSAT" {
        StepIsQuery(name, num, clients, message, world);
        r := HandleQuery(message, inputs, world.places);
      } else {
        r := Returns(Handled("? " + message, []));
      }
    }

    /** The `AT` branch: store and propagate when the client is new or the
        line is newer than the stored one. */
    method HandleUpdate(message: string, inputs: seq<string>, up: set<string>) returns (r: Outcome<Handled>)
      requires name in Neighbours && |inputs| == 6
      modifies this
      ensures Agrees(r, PeerUpdate(name, num, old(clients), message, inputs, up), old(clients), clients)
    {
      var id := inputs[3];
      if id !in clients {
        clients := clients[id := message];
        var sends := Propagate(name, message, up);
        return Returns(Handled("", sends));
      }
      var tNew := num.parseFloat(inputs[5]);
      if tNew.None? {
        return Raises;
      }
      var tOld := StoredTimestamp(num, clients[id]);
      if tOld.Raises? {
        return Raises;
      }
      if tNew.value > tOld.value {
        clients := clients[id := message];
        var sends := Propagate(name, message, up);
        return Returns(Handled("", sends));
      }
      return Returns(Handled("", []));
    }

    /** The `IAMAT` branch: validate, store the acknowledgement, propagate it
        and answer with it. */
    method HandleRegistration(message: string, inputs: seq<string>, world: World) returns (r: Outcome<Handled>)
      requires name in Neighbours && |inputs| == 4
      modifies this
      ensures Agrees(r, Registration(name, num, old(clients), message, inputs, world), old(clients), clients)
    {
      var valid := IsValidIamat(num, inputs[2], inputs[3]);
      if valid.Raises? {
        return Raises;
      }
      if !valid.value {
        return Returns(Handled("? " + message, []));
      }
      var ts := num.parseFloat(inputs[3]);
      if ts.None? {
        return Raises;
      }
      var timeDiff := world.now - ts.value;
      var line := Acknowledgement(name, num, inputs, timeDiff);
      clients := clients[inputs[1] := line];
      var sends := Propagate(name, line, world.up);
      return Returns(Handled(line, sends));
    }

    /** The `WHATSAT` branch: validate, then answer with the stored line and
        the places found around its coordinate. */
    method HandleQuery(message: string, inputs: seq<string>, places: PlacesApi) returns (r: Outcome<Handled>)
      requires |inputs| == 4
      ensures Agrees(r, Query(num, clients, message, inputs, places), clients, clients)
    {
      var valid := IsValidWhatsat(num, clients, inputs);
      if valid.Raises? {
        return Raises;
      }
      if !valid.value {
        return Returns(Handled("? " + message, []));
      }
      var clientInput := clients[inputs[1]];
      var fields := Split(clientInput);
      if |fields| < 5 {
        return Raises;
      }
      var found := GetPlaces(places, num, fields[4], inputs[2], inputs[3]);
      if found.Raises? {
        return Raises;
      }
      return Returns(Handled(clientInput + "\n" + RStripNewlines(found.value) + "\n\n", []));
    }
  }
}
