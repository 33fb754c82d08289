/** The static mesh configuration, `server_ports` and `server_communication`. */
module Topology {
  import opened Text

  const Ports: map<string, int> :=
    map["Riley" := 15560, "Jaquez" := 15561, "Juzang" := 15562,
        "Campbell" := 15563, "Bernard" := 15564]

  /** The servers each server floods to, in the order it tries them. */
  const Neighbours: map<string, seq<string>> :=
    map["Riley" := ["Jaquez", "Juzang"],
        "Jaquez" := ["Riley", "Bernard"],
        "Juzang" := ["Riley", "Campbell", "Bernard"],
        "Campbell" := ["Juzang", "Bernard"],
        "Bernard" := ["Jaquez", "Juzang", "Campbell"]]

  /** The servers of the mesh: those `main` accepts as a name. */
  const Nodes: set<string> := Ports.Keys

  /** The largest number of neighbours any server has. */
  const MaxDegree: nat := 3

  /** Both tables name the same servers, every neighbour has a port, no
      server is its own neighbour, and no list names a server twice. */
  lemma TablesAgree()
    ensures Neighbours.Keys == Nodes
    ensures forall n, k :: n in Neighbours && 0 <= k < |Neighbours[n]| ==>
      Neighbours[n][k] in Ports && Neighbours[n][k] != n
    ensures forall n, j, k :: n in Neighbours && 0 <= j < k < |Neighbours[n]| ==>
      Neighbours[n][j] != Neighbours[n][k]
    ensures forall n :: n in Neighbours ==> |Neighbours[n]| <= MaxDegree
  {
  }

  /** Every server has a neighbour list of at most `MaxDegree` servers, and
      every neighbour a port. */
  lemma HasNeighbours(n: string)
    requires n in Nodes
    ensures n in Neighbours && |Neighbours[n]| <= MaxDegree
    ensures forall m :: m in Neighbours[n] ==> m in Ports
  {
  }

  /** Server names are single words, so they survive `split()`. */
  lemma NameIsToken(n: string)
    requires n in Neighbours
    ensures IsToken(n)
  {
  }

  /** Every server lists as a neighbour each server that lists it. */
  lemma Symmetric()
    ensures forall n, m :: n in Neighbours && m in Neighbours[n] ==>
      m in Neighbours && n in Neighbours[m]
  {
  }

  /** A set of servers that contains one server and every neighbour of its
      members contains every server. */
  lemma Connected(s: set<string>)
    requires s <= Nodes && s != {}
    requires forall n, m :: n in s && n in Neighbours && m in Neighbours[n] ==> m in s
    ensures s == Nodes
  {
    var n :| n in s;
    assert "Riley" in Neighbours["Jaquez"] && "Riley" in Neighbours["Juzang"];
    assert "Juzang" in Neighbours["Campbell"] && "Jaquez" in Neighbours["Bernard"];
    assert "Riley" in s;
    assert "Jaquez" in Neighbours["Riley"] && "Juzang" in Neighbours["Riley"];
    assert "Campbell" in Neighbours["Juzang"] && "Bernard" in Neighbours["Juzang"];
  }
}
