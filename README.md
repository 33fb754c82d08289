# Location mesh server: request handling and flooding

This project models the request logic of the `Server` class in
`Project/server.py`. The server is one node of a five-server mesh (Riley,
Jaquez, Juzang, Campbell, Bernard). Clients report where they are with
`IAMAT <id> <±lat±lon> <timestamp>` and ask about nearby places with
`WHATSAT <id> <radius> <bound>`. Servers pass location updates to each other
as `AT <server> <skew> <id> <±lat±lon> <timestamp>` lines and flood them over
a static neighbour table.

The model has seven modules:

- `Text`: Python's `str.split()` (`Split`), the joining of words with single
  spaces that the server's f-strings perform (`JoinSpaced`), and
  `str.rstrip('\n')`.
- `Numbers`: `float`, `int` and `str` of a float as an abstract `Numerals`
  value. Every property holds for every choice of them. `is_number` is
  "`float` does not raise".
- `Validation`: `isValidIMAT`, `isValidWHATSAT` and the
  `replace('+','-').index('-', 1, -1)` split of a coordinate.
- `Places`: the part of `get_places` that the server computes itself. That
  is the comma-separated location, the truncation of the results to the
  bound, and the boundary to the nearby-search service (a `PlacesApi`
  parameter).
- `Topology`: the `server_ports` and `server_communication` tables and their
  properties (symmetric, connected, degree at most 3).
- `Requests`: `Step`, the pure specification of one `handle_client_input`
  call. Given the server's name, its store `clients`, the message, the clock,
  the set of servers that are up and the places service, it gives the new
  store, the response and the propagation attempts, or `Raises` when the
  Python code raises an exception nothing catches. The lemmas state the
  dispatch, the timestamp acceptance rule for `AT`, the unconditional store
  on `IAMAT`, the query rules, the propagation fan-out and the store
  invariant.
- `Servers`: the `Server` class. Its field `clients` is a `map` that
  `Handle` updates in place. `Handle` is proved to agree with `Step`, and
  `Propagate` is the loop of `propagate_message`, proved equal to `Fanout`.
- `Mesh`: the flood of one `AT` line through the whole mesh, for every order
  of arrival. Every arrival decreases a measure, so the flood terminates.
  Each server accepts the line at most once while only the flood's own
  copies arrive. A direct `IAMAT` for the same client with an older
  timestamp can make a server accept the line again
  (`Mesh.RegistrationReopens`). With every server up, a line that every
  server would accept reaches all of them.

The model follows the code in these places, where the code does something
other than a location service would be expected to do:

- A valid `IAMAT` stores its acknowledgement unconditionally, even over a
  newer record (server.py:82). The acceptance rule applies only to `AT`
  lines.
- The skew gets a `+` only when `now - timestamp > 0` (server.py:76), not
  when it is non-negative.
- A connection handler can crash on a malformed message. The model has
  `Raises` for each case. The handler then stops without a reply, and the
  store keeps what was written before the exception. The cases are:
  - a malformed coordinate;
  - a non-integer radius or bound;
  - a stored line without the field that is looked up;
  - a failing places call;
  - a non-numeric `AT` timestamp, but only for a client that is already
    stored.
- An `AT` line about an unknown client is stored and flooded without its
  timestamp being parsed (server.py:56-58). If that timestamp is not a
  number, every later `AT` line about the client raises on the stored field
  (server.py:61; the raise clause of `Requests.PeerUpdateRule`). Only a
  direct `IAMAT`, which stores unconditionally, replaces it.

## Model

| member | source | states |
|---|---|---|
| `Text.SplitTokens` | Project/server.py:49 | every piece of `message.split()` is a non-empty word without separators |
| `Text.SplitJoinSpaced` | Project/server.py:81 | splitting words joined by single spaces gives back the words (the canonical line round-trips through `split()`) |
| `Text.SplitTokenSpace` | Project/server.py:49 | a word, a space and a rest split into the word followed by the words of the rest |
| `Text.SplitToken` | Project/server.py:49 | a single word splits into itself |
| `Text.RStripNewlines` | Project/server.py:97 | the result is the longest prefix not ending in a newline, and only newlines were removed |
| `Validation.FindSign` | Project/server.py:161 | the first `+` or `-` at or after the start position and before the last character, or none when there is no such sign |
| `Validation.SplitIndexOfPair` | Project/server.py:161 | on two signed halves, the split index is the length of the first half |
| `Validation.CoordinatesOfPair` | Project/server.py:161-163 | the coordinate split of two signed halves gives back the two halves' numbers, and raises when either is not a number |
| `Validation.ValidIamatOfPair` | Project/server.py:159-174 | a two-halves coordinate is valid exactly when latitude is in [-90, 90], longitude in [-180, 180] and the time is a number |
| `Validation.UnsplittableRaises` | Project/server.py:161 | a coordinate with no sign strictly inside it makes `isValidIMAT` raise |
| `Validation.IsValidWhatsat` | Project/server.py:179-180 | a query is accepted only for a known client |
| `Validation.WhatsatAccepts` | Project/server.py:177-190 | accepted if and only if the client is known, the radius is a number and an integer at most 50, and the bound is a number and an integer at most 20 |
| `Validation.WhatsatLimits` | Project/server.py:183-188 | a radius above 50, or a bound above 20, is rejected; only an `int` failure on the radius can turn the latter into a raise |
| `Places.PrefixSlice` | Project/server.py:152 | Python's `xs[0:b]`: a prefix of length `b`, or, for negative `b`, `len(xs)+b` clamped at 0 |
| `Places.Truncate` | Project/server.py:151-155 | the results kept are a prefix; at most `bound` of them for a non-negative bound, all of them when there are no more than `bound` |
| `Places.TruncateKeepsFirst` | Project/server.py:151-152 | with more results than a non-negative bound, exactly the first `bound` results are kept |
| `Places.QueryLocationOfPair` | Project/server.py:141-142 | the location sent to the service is the two halves with a comma between them |
| `Text.Split` | Project/server.py:49 | Python's `str.split()` with no argument: the maximal runs of non-whitespace, in order (properties in `SplitTokens` and `SplitJoinSpaced`) |
| `Numbers.IsNumber` | Project/server.py:24-29 | `is_number(s)`: `float(s)` does not raise |
| `Validation.SplitIndex` | Project/server.py:161 | `lat_long.replace('+', '-').index('-', 1, -1)`, `None` where `index` raises (properties in `FindSign`) |
| `Validation.Coordinates` | Project/server.py:161-163 | the two `float` calls on the halves of the split, raising where the split or either `float` raises |
| `Validation.IsValidIamat` | Project/server.py:159-174 | `isValidIMAT(lat_long, time)`: the range checks on the two halves and `is_number(time)` |
| `Validation.AtMost` | Project/server.py:183 | `not (not is_number(s) or int(s) > limit)`, raising where `int` does |
| `Places.QueryLocation` | Project/server.py:141-142 | the location with a comma inserted at the split, raising where `index` does |
| `Places.GetPlaces` | Project/server.py:140-155 | `get_places`: the comma location, the service call, `int(bound)` and the truncation, raising where any of them does |
| `Topology.TablesAgree` | Project/server.py:12-21 | both tables name the same servers; every neighbour has a port, is not the server itself and is listed once; degree at most 3 |
| `Topology.HasNeighbours` | Project/server.py:15-21 | every server has a neighbour list of at most 3 servers that all have ports |
| `Topology.NameIsToken` | Project/server.py:12 | server names are single words |
| `Topology.Symmetric` | Project/server.py:15-21 | the neighbour relation is symmetric |
| `Topology.Connected` | Project/server.py:15-21 | a non-empty set of servers closed under neighbours is the whole mesh |
| `Requests.StoredTimestamp` | Project/server.py:61 | `float(self.clients[id].split()[5])`, raising on a short line or a non-number |
| `Requests.PeerUpdate` | Project/server.py:54-67 | the `AT` branch: store and flood when the client is unknown or the line is newer; raise where `float` or the index raises (properties in `PeerUpdateValue`) |
| `Requests.Skew` | Project/server.py:74-79 | `time_diff_append` followed by `str(time_diff)` |
| `Requests.Acknowledgement` | Project/server.py:81 | the f-string `AT name skew id coordinate timestamp` |
| `Requests.Registration` | Project/server.py:72-87 | the `IAMAT` branch (properties in `RegistrationValue`) |
| `Requests.Query` | Project/server.py:90-99 | the `WHATSAT` branch (properties in `QueryOutcome` and `QueryAnswer`) |
| `Requests.Step` | Project/server.py:49-103 | `handle_client_input` on one message: the classification by token count and first token and the three branches (properties in the lemmas below) |
| `Requests.Written` | Project/server.py:106-109 | what is written back on the connection: the response of a handler that returned, and only when it is not empty |
| `Requests.Fanout` | Project/server.py:128-137 | one attempt per listed neighbour, in order, each carrying the unchanged message, succeeding exactly when the neighbour has a port and is up |
| `Requests.StepIsPeerUpdate` | Project/server.py:52-54 | a six-token message starting with `AT` takes the peer-update branch |
| `Requests.StepIsRegistration` | Project/server.py:71-73 | a four-token message starting with `IAMAT` takes the registration branch |
| `Requests.StepIsQuery` | Project/server.py:89-91 | a four-token message starting with `WHATSAT` takes the query branch |
| `Requests.Unrecognised` | Project/server.py:52-103 | every other message is answered with `"? " + message`, with no store change and no sends |
| `Requests.PeerNeverReplies` | Project/server.py:67 | nothing is written back for a peer update, accepted or not |
| `Requests.PeerUpdateRule` | Project/server.py:54-66 | an `AT` line is stored and flooded when its client is unknown or its timestamp is strictly greater than the stored line's; otherwise nothing changes and nothing is sent; it raises exactly when the client is known and a timestamp is not a number; no other client's entry changes |
| `Requests.PeerUpdateValue` | Project/server.py:56-66 | the same rule for the peer-update branch on its own |
| `Requests.RedeliveryDropped` | Project/server.py:61-66 | re-delivering the stored line, or a line whose timestamp is not greater, sends nothing and changes nothing (or raises) |
| `Requests.RedeliveryNumeric` | Project/server.py:61-66 | re-delivering the stored line with a numeric timestamp is a rejection |
| `Requests.PeerMonotonic` | Project/server.py:56-66 | after `m1` is stored, a later `m2` about the same client replaces it exactly when its timestamp is greater |
| `Requests.CanonicalLineTokens` | Project/server.py:81 | the canonical `AT` line splits back into its six fields |
| `Requests.SkewIsToken` | Project/server.py:76-79 | the skew is one word and starts with `+` when the difference is positive |
| `Requests.RegistrationReply` | Project/server.py:72-85 | a valid `IAMAT` answers with `AT name skew id coordinate timestamp`, stores exactly that line under `id` whatever was stored, floods the same line, and the line splits into those six fields |
| `Requests.RegistrationRejected` | Project/server.py:73-87 | an `IAMAT` that `isValidIMAT` rejects is answered with `"? " + message` and changes nothing; one on which it raises gets no answer |
| `Requests.RegistrationValue` | Project/server.py:73-87 | the registration branch in each outcome of `isValidIMAT`: a raise, the echo with nothing changed, or the acknowledgement stored, returned and flooded |
| `Requests.AcknowledgementTokens` | Project/server.py:81 | the acknowledgement splits back into its six fields |
| `Requests.EchoDropped` | Project/server.py:61-85 | the line a registration floods is dropped when it comes back to its origin: nothing stored, nothing sent |
| `Requests.QueryRules` | Project/server.py:90-99 | a query is echoed with `"? "` whenever `isValidWHATSAT` rejects it (an unknown client, a radius or bound that is not a number, a radius above 50 or a bound above 20) and gets no answer when it raises; it never changes the store or sends; a valid query raises exactly when the stored line lacks its coordinate field or the places call raises, and is otherwise answered with the stored line, a newline, the places text without trailing newlines and a blank line |
| `Requests.QueryOutcome` | Project/server.py:91-99 | the echo on every rejection of `isValidWHATSAT`, the raise when it raises, the frame and the shape of an answer for the query branch on its own |
| `Requests.QueryAnswer` | Project/server.py:92-97 | the query branch on a valid query: when it raises, and the exact answer |
| `Requests.StoredQueryAnswered` | Project/server.py:92-97 | with the store invariant, a valid query raises only when the places call does, and is otherwise answered with the stored line and the places found |
| `Requests.SendsStayInTopology` | Project/server.py:126-137 | every attempt goes to a configured neighbour with a port and carries the stored line; it succeeds exactly when that neighbour is up |
| `Requests.StepKeepsStoreWf` | Project/server.py:56-82 | every stored line stays a six-token `AT` line about the client it is stored under |
| `Requests.RegistrationKeepsStoreWf` | Project/server.py:82 | a registration keeps the store invariant |
| `Requests.AcknowledgementIsPeerLine` | Project/server.py:81 | the acknowledgement is an `AT` line about the registering client with the registration's timestamp |
| `Requests.AcknowledgementTimestamp` | Project/server.py:81 | the timestamp read back from the acknowledgement is the registration's own |
| `Requests.StoreWfUpdate` | Project/server.py:57 | storing a peer line under its own client keeps the invariant |
| `Requests.QueryKeepsStore` | Project/server.py:90-99 | a query leaves the store unchanged and sends nothing |
| `Requests.PeerUpdateKeepsStoreWf` | Project/server.py:56-63 | a peer update keeps the store invariant |
| `Requests.PeerUpdateStores` | Project/server.py:56-66 | a peer update either keeps the store or stores the message under its client |
| `Requests.StoredLinesHaveFields` | Project/server.py:92-93 | under the invariant a stored line has six fields |
| `Servers.Server.constructor` | Project/server.py:32-37 | a server of `server_ports` starts with an empty store |
| `Servers.Server.Propagate` | Project/server.py:126-137 | the loop makes exactly the attempts of `Fanout`, one per neighbour in list order, a failure not stopping later ones |
| `Servers.Server.Handle` | Project/server.py:49-103 | updates `clients` in place exactly as `Step` says, returns its response and attempts, raises exactly when `Step` does with `clients` unchanged, and keeps the store invariant |
| `Servers.Server.HandleUpdate` | Project/server.py:54-67 | the `AT` branch agrees with `PeerUpdate` |
| `Servers.Server.HandleRegistration` | Project/server.py:72-87 | the `IAMAT` branch agrees with `Registration` |
| `Servers.Server.HandleQuery` | Project/server.py:90-99 | the `WHATSAT` branch agrees with `Query` and changes nothing |
| `Mesh.FanoutDelivered` | Project/server.py:128-137 | a flood puts no more copies in flight than the list has entries, only to listed servers that are up, and one to every neighbour that is up |
| `Mesh.DeliveredOnce` | Project/server.py:128-137 | from a list without repetitions, at most one copy goes to each server |
| `Mesh.FloodCopiesOnce` | Project/server.py:15-21 | a flood from any server of the mesh puts at most one copy in flight to each server |
| `Mesh.DeliveredSize` | Project/server.py:128-137 | no more copies than attempts |
| `Mesh.DeliveredTargets` | Project/server.py:128-137 | copies go only to listed neighbours that were reached |
| `Mesh.DeliveredReached` | Project/server.py:128-137 | every reached neighbour gets a copy |
| `Mesh.Deliver` | Project/server.py:49-67 | one copy arriving: the destination's handler runs on the line, its store is replaced and the attempts that got through put new copies in flight; a raise consumes the copy |
| `Mesh.PeerCases` | Project/server.py:56-66 | a peer line is dropped, or is stored and flooded at a server that did not hold it |
| `Mesh.DeliverCases` | Project/server.py:56-66 | an arrival only consumes its copy, or stores the line and puts copies in flight |
| `Mesh.DeliverFrame` | Project/server.py:56-63 | an arrival changes only the destination's store, only by storing the line, and never at a server that holds it |
| `Mesh.AcceptFrame` | Project/server.py:57 | storing the line at one server changes no other store |
| `Mesh.DeliverMeasure` | Project/server.py:56-66 | every arrival decreases the measure |
| `Mesh.AcceptMeasure` | Project/server.py:62-63 | an acceptance removes one server that lacked the line and adds at most 3 copies |
| `Mesh.DeliverProgress` | Project/server.py:56-66 | the frame and the measure decrease together |
| `Mesh.Replay` | Project/server.py:126-137 | running a schedule keeps the flood state well formed |
| `Mesh.ReplayBounded` | Project/server.py:56-66 | no interleaving of arrivals is longer than the starting measure: the flood terminates whatever cycles the topology has |
| `Mesh.AcceptsAtMostOnce` | Project/server.py:56-66 | each server accepts a given line at most once, and not at all if it holds it already |
| `Mesh.RegistrationReopens` | Project/server.py:56-82 | at a server holding the line, a valid `IAMAT` for the same client with an older timestamp overwrites the entry, and the line arriving again is accepted and flooded again |
| `Mesh.ReacceptsOverOlder` | Project/server.py:61-63 | an entry with an older timestamp is replaced by the line, which is flooded |
| `Mesh.DeliverKeepsClosed` | Project/server.py:56-63 | with all servers up, an arrival keeps the flood fresh and closed, and its destination holds the line |
| `Mesh.DeliverAccepts` | Project/server.py:56-63 | a server that would accept the line and does not hold it stores and floods it |
| `Mesh.DropKeepsClosed` | Project/server.py:64-66 | a dropped copy keeps the flood closed |
| `Mesh.AcceptKeepsClosed` | Project/server.py:62-63 | storing the line and sending to every neighbour keeps the flood fresh and closed |
| `Mesh.AtRestEverywhere` | Project/server.py:15-21 | with nothing in flight, a closed flood that some server holds is held everywhere |
| `Mesh.Converges` | Project/server.py:126-137 | a fresh, closed flood run with all servers up ends with every server holding the line |
| `Mesh.AllUpTail` | Project/server.py:129-137 | the rest of an all-up schedule is all up |
| `Mesh.Seed` | Project/server.py:82-85 | the flood right after the origin stored the line is well formed, with the line at the origin |
| `Mesh.SeedFresh` | Project/server.py:82-85 | the seed is fresh when every other server would accept the line |
| `Mesh.SeedIsClosed` | Project/server.py:82-85 | with all servers up and no other server holding the line, the seed is closed |
| `Mesh.SeedClosed` | Project/server.py:128-137 | a flood where only the origin holds the line and all its neighbours have a copy is closed |
| `Mesh.RegistrationSeeds` | Project/server.py:82-85 | an accepted registration starts exactly that seed: its acknowledgement is stored at the origin and a copy goes to each neighbour that is up |
| `Mesh.FloodReachesAll` | Project/server.py:56-66 | an update every other server would accept and none holds, flooded while all servers are up, reaches every server once nothing is in flight, in every order, after a bounded number of arrivals |

## Left out

- Project/client.py is not part of this model: it only reads input and sends it over a socket.
- Sockets and asyncio: `reader.read`, `writer.write`, `run_forever` and the connections of `propagate_message` are left out. A propagation attempt is a record whose success is "the neighbour has a port and is in the `up` set". A connection that fails after the message was written counts as not delivered.
- Concurrency: handlers that interleave at `await` points are not modelled. Each `Handle` call runs to completion. In the mesh, only the order in which copies arrive varies.
- The read size limit `message_max_length` and UTF-8 decoding of the bytes read are left out. The message is a string.
- Logging and the command line (`logging`, `main`, argparse) are left out.
- Numbers: the syntax of `float`/`int`, IEEE rounding and `str` of a float are abstract (`Numerals`). The range checks compare reals. `is_number` applied to an already-parsed float always holds and is not modelled.
- `nan` and `inf` are not modelled: `parseFloat` yields reals only. In Python every comparison with `nan` is false. So a `nan` coordinate passes `isValidIMAT`'s range check, and a stored line with a `nan` timestamp is never replaced by an `AT` line. In the model, both follow whatever real `parseFloat` gives for that text.
- `get_places`: the HTTP request, the API key, the URL and the JSON encoding (`json.dumps(..., indent=4)`) are behind the `PlacesApi` parameter. Its failures are `Raises`. `dumps` sees only the (truncated) results. The rest of the service's JSON reply is therefore the same for every query, and the model does not relate it to the request.
- `time.time()` is the `now` field of `World`.
- `Mesh.FloodReachesAll`: convergence is stated for one line, with every server up throughout. With servers down, only termination and at-most-once acceptance are proved. The mesh does not retry, so a server that was down may never get the line.
- Mesh.AcceptsAtMostOnce: at-most-once acceptance holds only for a flood with no other events. A direct `IAMAT` for the same client arriving during the flood is not part of `Mesh.Flood`. If its timestamp is older than the line's, it overwrites the entry (server.py:82), and a later copy of the line is accepted and flooded again (`Mesh.RegistrationReopens`). So in the running system a line can be accepted more than once per server.
- Mesh: a handler that raises consumes its copy. Floods about other clients are not modelled together with this one.
