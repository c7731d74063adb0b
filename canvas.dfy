/** The architecture builder page as one object: the placed nodes and the connections between
    them, the connect-mode state, the selection, and the evaluation (suggestions, score and
    feedback) that the page recomputes whenever nodes or connections change. */
module Canvas {
  import opened Basics
  import opened Text
  import opened Services
  import opened Architecture
  import opened Suggestions
  import opened Scoring
  import opened Feedback

  /** One service of a template: a catalogue name, a position and an optional label. */
  datatype TemplateService = TemplateService(serviceName: string, x: int, y: int, labelText: Option<string>)

  /** One connection of a template; `from` and `to` name a service or a label of the template. */
  datatype TemplateConnection = TemplateConnection(
    from: string, to: string, kind: ConnectionType, labelText: Option<string>)

  datatype Template = Template(
    id: string, name: string, description: string, category: string,
    services: seq<TemplateService>, connections: seq<TemplateConnection>)

  /** Some node on the canvas has this id. */
  predicate HasNode(nodes: seq<Node>, id: string)
  {
    exists i :: 0 <= i < |nodes| && nodes[i].id == id
  }

  /** Every connection joins two nodes that are on the canvas. */
  predicate EdgesClosed(nodes: seq<Node>, connections: seq<Connection>)
  {
    forall c :: c in connections ==> HasNode(nodes, c.fromServiceId) && HasNode(nodes, c.toServiceId)
  }

  /** No connection leads from a node to itself. */
  predicate NoSelfLoops(connections: seq<Connection>)
  {
    forall c :: c in connections ==> c.fromServiceId != c.toServiceId
  }

  /** The node a template adds for catalogue entry `service`, the `index`-th template service.
      Its id is the service name, the time stamp and a per-template-service suffix; its label
      is the template label unless that is missing or empty, in which case it is the service name. */
  function TemplateNode(entry: TemplateService, service: AwsService, stamp: string, index: nat): (node: Node)
    ensures node.service == service && node.x == entry.x && node.y == entry.y
    ensures entry.labelText.Some? && entry.labelText.value != "" ==> node.labelText == entry.labelText
    ensures entry.labelText.None? || entry.labelText.value == "" ==> node.labelText == Some(service.name)
  {
    var labelText := if entry.labelText.Some? && entry.labelText.value != "" then entry.labelText.value
                     else service.name;
    Node(service.name + "-" + stamp + "-" + NatToString(index), service, entry.x, entry.y, Some(labelText))
  }

  /** What the first pass of `loadTemplate` does with the `index`-th template service: its node
      when the name is in the catalogue, nothing otherwise. */
  function NodeFor(entry: TemplateService, index: nat, catalogue: seq<AwsService>, stamp: string): (node: Option<Node>)
    ensures node.Some? <==> FindByName(catalogue, entry.serviceName).Some?
    ensures node.Some? ==> node.value == TemplateNode(entry, FindByName(catalogue, entry.serviceName).value, stamp, index)
    ensures node.Some? ==> node.value.service in catalogue && node.value.service.name == entry.serviceName
  {
    match FindByName(catalogue, entry.serviceName)
    case None => None
    case Some(service) => Some(TemplateNode(entry, service, stamp, index))
  }

  /** What the first pass of `loadTemplate` does with each template service, in template order. */
  function NodeOptions(entries: seq<TemplateService>, catalogue: seq<AwsService>, stamp: string): seq<Option<Node>>
  {
    seq(|entries|, j requires 0 <= j < |entries| => NodeFor(entries[j], j, catalogue, stamp))
  }

  /** The nodes that the first pass of `loadTemplate` builds, in template order: the node of each
      template service whose name is in the catalogue (`TemplateNodesComplete`, `TemplateNodesOrdered`). */
  function TemplateNodes(entries: seq<TemplateService>, catalogue: seq<AwsService>, stamp: string): (nodes: seq<Node>)
    ensures |nodes| <= |entries|
    ensures forall n :: n in nodes ==> n.service in catalogue
  {
    var options := NodeOptions(entries, catalogue, stamp);
    SomesFromOptions(options);
    Somes(options)
  }

  /** A node answers to `key` when its service name or its label is `key`. */
  predicate AnswersTo(n: Node, key: string)
  {
    n.service.name == key || n.labelText == Some(key)
  }

  /** `newServices.find(...)` by service name or label: the first node that answers to `key`. */
  function FindEndpoint(nodes: seq<Node>, key: string): (found: Option<Node>)
    ensures found.Some? ==> found.value in nodes && AnswersTo(found.value, key)
    ensures found.None? <==> forall n :: n in nodes ==> !AnswersTo(n, key)
    ensures found.Some? ==> exists i :: 0 <= i < |nodes| && nodes[i] == found.value &&
                              forall j :: 0 <= j < i ==> !AnswersTo(nodes[j], key)
  {
    if nodes == [] then None
    else if AnswersTo(nodes[0], key) then
      assert nodes[0] == nodes[0];
      Some(nodes[0])
    else
      var r := FindEndpoint(nodes[1..], key);
      if r.Some? then
        var i :| 0 <= i < |nodes[1..]| && nodes[1..][i] == r.value &&
                 forall j :: 0 <= j < i ==> !AnswersTo(nodes[1..][j], key);
        assert nodes[i + 1] == r.value;
        assert forall j :: 1 <= j < i + 1 ==> nodes[j] == nodes[1..][j - 1];
        r
      else r
  }

  /** What the second pass of `loadTemplate` does with one template connection: an edge between
      the nodes its two ends resolve to, or nothing when either end does not resolve. */
  function EdgeFor(link: TemplateConnection, nodes: seq<Node>, stamp: string): (edge: Option<Connection>)
    ensures edge.Some? <==> FindEndpoint(nodes, link.from).Some? && FindEndpoint(nodes, link.to).Some?
    ensures edge.Some? ==>
              edge.value.fromServiceId == FindEndpoint(nodes, link.from).value.id &&
              edge.value.toServiceId == FindEndpoint(nodes, link.to).value.id &&
              edge.value.kind == link.kind && edge.value.labelText == link.labelText
    ensures edge.Some? ==> HasNode(nodes, edge.value.fromServiceId) && HasNode(nodes, edge.value.toServiceId)
  {
    var from, to := FindEndpoint(nodes, link.from), FindEndpoint(nodes, link.to);
    if from.Some? && to.Some? then
      assert HasNode(nodes, from.value.id) by { InNodes(nodes, from.value); }
      assert HasNode(nodes, to.value.id) by { InNodes(nodes, to.value); }
      Some(Connection(from.value.id + "-" + to.value.id + "-" + stamp, from.value.id, to.value.id, link.labelText, link.kind))
    else None
  }

  /** What the second pass of `loadTemplate` does with each template connection, in template order. */
  function EdgeOptions(links: seq<TemplateConnection>, nodes: seq<Node>, stamp: string): seq<Option<Connection>>
  {
    seq(|links|, j requires 0 <= j < |links| => EdgeFor(links[j], nodes, stamp))
  }

  /** The connections that the second pass of `loadTemplate` builds, in template order: the edge of
      each template connection whose two ends resolve (`TemplateConnectionsComplete`,
      `TemplateConnectionsOrdered`). Every edge
      joins two of the new nodes. */
  function TemplateConnections(links: seq<TemplateConnection>, nodes: seq<Node>, stamp: string): (connections: seq<Connection>)
    ensures |connections| <= |links|
    ensures EdgesClosed(nodes, connections)
  {
    var options := EdgeOptions(links, nodes, stamp);
    SomesFromOptions(options);
    Somes(options)
  }

  /** Every template service whose name is in the catalogue yields its node. */
  lemma TemplateNodesComplete(entries: seq<TemplateService>, catalogue: seq<AwsService>, stamp: string)
    ensures var nodes := TemplateNodes(entries, catalogue, stamp);
            forall j :: 0 <= j < |entries| && NodeFor(entries[j], j, catalogue, stamp).Some? ==>
              NodeFor(entries[j], j, catalogue, stamp).value in nodes
  {
    var options := NodeOptions(entries, catalogue, stamp);
    SomesKeepsAll(options);
    forall j | 0 <= j < |entries| && NodeFor(entries[j], j, catalogue, stamp).Some?
      ensures NodeFor(entries[j], j, catalogue, stamp).value in Somes(options)
    {
      assert options[j] == NodeFor(entries[j], j, catalogue, stamp);
    }
  }

  /** Every node comes from a template service whose name is in the catalogue, and the nodes
      keep template order: the `i`-th node is the node of template service `origin[i]`, and the
      origins strictly increase. */
  lemma TemplateNodesOrdered(entries: seq<TemplateService>, catalogue: seq<AwsService>, stamp: string)
    ensures var nodes := TemplateNodes(entries, catalogue, stamp);
            var origin := SomeIndices(NodeOptions(entries, catalogue, stamp));
            |origin| == |nodes| &&
            (forall i :: 0 <= i < |origin| ==>
               origin[i] < |entries| && NodeFor(entries[origin[i]], origin[i], catalogue, stamp) == Some(nodes[i])) &&
            (forall i, k :: 0 <= i < k < |origin| ==> origin[i] < origin[k])
  {
    var options := NodeOptions(entries, catalogue, stamp);
    var origin := SomeIndices(options);
    assert TemplateNodes(entries, catalogue, stamp) == Somes(options);
    forall i | 0 <= i < |origin|
      ensures NodeFor(entries[origin[i]], origin[i], catalogue, stamp) == Some(Somes(options)[i])
    {
      assert options[origin[i]] == NodeFor(entries[origin[i]], origin[i], catalogue, stamp);
    }
  }

  /** Every template connection whose two ends resolve yields its edge. */
  lemma TemplateConnectionsComplete(links: seq<TemplateConnection>, nodes: seq<Node>, stamp: string)
    ensures var connections := TemplateConnections(links, nodes, stamp);
            forall j :: 0 <= j < |links| && EdgeFor(links[j], nodes, stamp).Some? ==>
              EdgeFor(links[j], nodes, stamp).value in connections
  {
    var options := EdgeOptions(links, nodes, stamp);
    SomesKeepsAll(options);
    forall j | 0 <= j < |links| && EdgeFor(links[j], nodes, stamp).Some?
      ensures EdgeFor(links[j], nodes, stamp).value in Somes(options)
    {
      assert options[j] == EdgeFor(links[j], nodes, stamp);
    }
  }

  /** Every edge comes from a template connection whose two ends resolve, and the edges keep
      template order: the `i`-th edge is the edge of template connection `origin[i]`, and the
      origins strictly increase. */
  lemma TemplateConnectionsOrdered(links: seq<TemplateConnection>, nodes: seq<Node>, stamp: string)
    ensures var connections := TemplateConnections(links, nodes, stamp);
            var origin := SomeIndices(EdgeOptions(links, nodes, stamp));
            |origin| == |connections| &&
            (forall i :: 0 <= i < |origin| ==>
               origin[i] < |links| && EdgeFor(links[origin[i]], nodes, stamp) == Some(connections[i])) &&
            (forall i, k :: 0 <= i < k < |origin| ==> origin[i] < origin[k])
  {
    var options := EdgeOptions(links, nodes, stamp);
    var origin := SomeIndices(options);
    assert TemplateConnections(links, nodes, stamp) == Somes(options);
    forall i | 0 <= i < |origin|
      ensures EdgeFor(links[origin[i]], nodes, stamp) == Some(Somes(options)[i])
    {
      assert options[origin[i]] == EdgeFor(links[origin[i]], nodes, stamp);
    }
  }

  lemma InNodes(nodes: seq<Node>, n: Node)
    requires n in nodes
    ensures HasNode(nodes, n.id)
  {
    var i :| 0 <= i < |nodes| && nodes[i] == n;
  }

  /** The certification tracks of one node's service; a null list contributes none. */
  function TracksOf(node: Node): (tracks: set<string>)
    ensures node.service.certificationTracks.None? ==> tracks == {}
    ensures node.service.certificationTracks.Some? ==>
              forall t :: t in tracks <==> t in node.service.certificationTracks.value
  {
    if node.service.certificationTracks.Some? then set t | t in node.service.certificationTracks.value
    else {}
  }

  /** The union of the tracks of all nodes. */
  function CertificationsOf(nodes: seq<Node>): (certs: set<string>)
    ensures forall c :: c in certs <==> exists i :: 0 <= i < |nodes| && c in TracksOf(nodes[i])
    decreases |nodes|
  {
    if nodes == [] then {}
    else
      var prefix := nodes[..|nodes| - 1];
      var certs := CertificationsOf(prefix) + TracksOf(nodes[|nodes| - 1]);
      assert forall i :: 0 <= i < |prefix| ==> prefix[i] == nodes[i];
      certs
  }

  /** `moveService`: the node with the id shifted by the deltas, every other node as it was. */
  function MoveNodes(nodes: seq<Node>, id: string, dx: int, dy: int): (moved: seq<Node>)
    ensures |moved| == |nodes|
    ensures forall i :: 0 <= i < |nodes| && nodes[i].id != id ==> moved[i] == nodes[i]
    ensures forall i :: 0 <= i < |nodes| && nodes[i].id == id ==>
              moved[i] == nodes[i].(x := nodes[i].x + dx, y := nodes[i].y + dy)
  {
    if nodes == [] then []
    else
      var head := if nodes[0].id == id then nodes[0].(x := nodes[0].x + dx, y := nodes[0].y + dy)
                  else nodes[0];
      [head] + MoveNodes(nodes[1..], id, dx, dy)
  }

  /** The grid cell `addSuggestedService` uses for the `count`-th node: five per row, 120 pixels apart. */
  function GridSlot(count: nat): (position: (int, int))
    ensures 100 <= position.0 <= 580 && (position.0 - 100) % 120 == 0
    ensures position.1 >= 100 && (position.1 - 100) % 120 == 0
  {
    (100 + (count % 5) * 120, 100 + (count / 5) * 120)
  }

  /** Different node counts land on different grid cells. */
  lemma GridSlotsDistinct(m: nat, n: nat)
    requires m != n
    ensures GridSlot(m) != GridSlot(n)
  {
    assert m == 5 * (m / 5) + m % 5;
    assert n == 5 * (n / 5) + n % 5;
  }

  /** The evaluation of a canvas snapshot: no nodes gives no suggestions and a null score and
      feedback; otherwise the suggestion rules, the score and the feedback of the node names,
      the node count and the connection count. */
  method Evaluation(nodes: seq<Node>, connections: seq<Connection>)
    returns (suggestions: seq<Suggestion>, score: Option<ArchitectureScore>, feedback: Option<DetailedFeedback>)
    ensures nodes == [] ==> suggestions == [] && score == None && feedback == None
    ensures nodes != [] ==>
              suggestions == SuggestionsFor(NamesOf(nodes)) &&
              score == Some(ScoreFor(NamesOf(nodes), |nodes|, |connections|)) &&
              feedback == Some(FeedbackFor(NamesOf(nodes), score.value.grade))
  {
    if |nodes| == 0 {
      return [], None, None;
    }
    var names := NamesOf(nodes);
    var categories := CategoriesOf(nodes);
    suggestions := GenerateSuggestions(names);
    var s := CalculateArchitectureScore(names, categories, connections);
    score := Some(s);
    var f := GenerateDetailedFeedback(names, s.grade);
    feedback := Some(f);
  }

  /** The first `forEach` of `loadTemplate`: resolve each template service in the catalogue. */
  method TemplateNodesPass(entries: seq<TemplateService>, services: seq<AwsService>, stamp: string)
    returns (newServices: seq<Node>)
    ensures newServices == TemplateNodes(entries, services, stamp)
  {
    newServices := [];
    assert NodeOptions(entries[..0], services, stamp) == [];
    var i := 0;
    while i < |entries|
      invariant 0 <= i <= |entries|
      invariant newServices == TemplateNodes(entries[..i], services, stamp)
    {
      var entry := entries[i];
      var service := FindByName(services, entry.serviceName);
      assert NodeOptions(entries[..i + 1], services, stamp) ==
             NodeOptions(entries[..i], services, stamp) + [NodeFor(entry, i, services, stamp)];
      SomesSnoc(NodeOptions(entries[..i], services, stamp), NodeFor(entry, i, services, stamp));
      if service.Some? {
        newServices := newServices + [TemplateNode(entry, service.value, stamp, i)];
      }
      i := i + 1;
    }
    assert entries[..i] == entries;
  }

  /** The second `forEach` of `loadTemplate`: resolve both ends of each template connection
      among the new nodes, by service name or label. */
  method TemplateConnectionsPass(links: seq<TemplateConnection>, newServices: seq<Node>, stamp: string)
    returns (newConnections: seq<Connection>)
    ensures newConnections == TemplateConnections(links, newServices, stamp)
  {
    newConnections := [];
    assert EdgeOptions(links[..0], newServices, stamp) == [];
    var j := 0;
    while j < |links|
      invariant 0 <= j <= |links|
      invariant newConnections == TemplateConnections(links[..j], newServices, stamp)
    {
      var link := links[j];
      var fromService := FindEndpoint(newServices, link.from);
      var toService := FindEndpoint(newServices, link.to);
      assert EdgeOptions(links[..j + 1], newServices, stamp) ==
             EdgeOptions(links[..j], newServices, stamp) + [EdgeFor(link, newServices, stamp)];
      SomesSnoc(EdgeOptions(links[..j], newServices, stamp), EdgeFor(link, newServices, stamp));
      if fromService.Some? && toService.Some? {
        newConnections := newConnections +
          [Connection(fromService.value.id + "-" + toService.value.id + "-" + stamp,
                      fromService.value.id, toService.value.id, link.labelText, link.kind)];
      }
      j := j + 1;
    }
    assert links[..j] == links;
  }

  class Builder {
    var nodes: seq<Node>
    var connections: seq<Connection>
    var selected: Option<string>
    var isConnecting: bool
    var connectingFrom: Option<string>
    var connectionType: ConnectionType
    var suggestions: seq<Suggestion>
    var score: Option<ArchitectureScore>
    var feedback: Option<DetailedFeedback>
    var architectureName: string
    var showCertPaths: bool

    /** The page as first rendered: an empty canvas, not connecting, sync connections. */
    constructor()
      ensures nodes == [] && connections == [] && selected == None
      ensures !isConnecting && connectingFrom == None && connectionType == Sync
      ensures suggestions == [] && score == None && feedback == None
      ensures architectureName == "" && !showCertPaths
    {
      nodes := [];
      connections := [];
      selected := None;
      isConnecting := false;
      connectingFrom := None;
      connectionType := Sync;
      suggestions := [];
      score := None;
      feedback := None;
      architectureName := "";
      showCertPaths := false;
    }

    predicate Closed()
      reads this
    {
      EdgesClosed(nodes, connections)
    }

    /** The evaluation effect (`generateSuggestions` and the calls it makes): an empty canvas
        clears the suggestions and nulls score and feedback; otherwise the rules, the score
        and the feedback are computed from the node names, the node count and the edge count. */
    method Evaluate()
      modifies this
      ensures nodes == old(nodes) && connections == old(connections)
      ensures selected == old(selected) && isConnecting == old(isConnecting)
      ensures connectingFrom == old(connectingFrom) && connectionType == old(connectionType)
      ensures architectureName == old(architectureName) && showCertPaths == old(showCertPaths)
      ensures nodes == [] ==> suggestions == [] && score == None && feedback == None
      ensures nodes != [] ==>
                suggestions == SuggestionsFor(NamesOf(nodes)) &&
                score == Some(ScoreFor(NamesOf(nodes), |nodes|, |connections|)) &&
                feedback == Some(FeedbackFor(NamesOf(nodes), score.value.grade))
    {
      suggestions, score, feedback := Evaluation(nodes, connections);
    }

    /** The Connect/Cancel button. */
    method ToggleConnecting()
      modifies this
      ensures isConnecting == !old(isConnecting)
      ensures connectingFrom == old(connectingFrom) && nodes == old(nodes) && connections == old(connections)
      ensures selected == old(selected) && connectionType == old(connectionType)
      ensures suggestions == old(suggestions) && score == old(score) && feedback == old(feedback)
      ensures architectureName == old(architectureName) && showCertPaths == old(showCertPaths)
    {
      isConnecting := !isConnecting;
    }

    /** The Cert Paths button. */
    method ToggleCertPaths()
      modifies this
      ensures showCertPaths == !old(showCertPaths)
      ensures nodes == old(nodes) && connections == old(connections) && selected == old(selected)
      ensures isConnecting == old(isConnecting) && connectingFrom == old(connectingFrom)
      ensures connectionType == old(connectionType) && architectureName == old(architectureName)
      ensures suggestions == old(suggestions) && score == old(score) && feedback == old(feedback)
    {
      showCertPaths := !showCertPaths;
    }

    /** The connection-type selector. */
    method SetConnectionType(kind: ConnectionType)
      modifies this
      ensures connectionType == kind
      ensures isConnecting == old(isConnecting) && connectingFrom == old(connectingFrom)
      ensures nodes == old(nodes) && connections == old(connections) && selected == old(selected)
      ensures suggestions == old(suggestions) && score == old(score) && feedback == old(feedback)
      ensures architectureName == old(architectureName) && showCertPaths == old(showCertPaths)
    {
      connectionType := kind;
    }

    /** A click completes a connection when connect mode has a (non-empty) start that differs
        from the clicked node. */
    predicate Completes(serviceId: string)
      reads this
    {
      isConnecting && connectingFrom.Some? && connectingFrom.value != "" && connectingFrom.value != serviceId
    }

    /** `handleServiceClick`, as written. In connect mode a click either completes the pending
        connection (and leaves connect mode) or records the clicked node as the start; outside
        connect mode it toggles the selection. The pending start is not checked against the
        canvas. */
    method ServiceClick(serviceId: string, stamp: string)
      modifies this
      ensures nodes == old(nodes) && connectionType == old(connectionType)
      ensures old(Completes(serviceId)) ==>
                connections == old(connections) +
                  [Connection(old(connectingFrom).value + "-" + serviceId + "-" + stamp,
                              old(connectingFrom).value, serviceId, None, old(connectionType))] &&
                !isConnecting && connectingFrom == None && selected == old(selected)
      ensures old(isConnecting) && !old(Completes(serviceId)) ==>
                connections == old(connections) && isConnecting &&
                connectingFrom == Some(serviceId) && selected == old(selected)
      ensures !old(isConnecting) ==>
                connections == old(connections) && !isConnecting && connectingFrom == old(connectingFrom) &&
                selected == (if old(selected) == Some(serviceId) then None else Some(serviceId))
      ensures old(NoSelfLoops(connections)) ==> NoSelfLoops(connections)
      ensures suggestions == old(suggestions) && score == old(score) && feedback == old(feedback)
      ensures architectureName == old(architectureName) && showCertPaths == old(showCertPaths)
    {
      if isConnecting {
        if Completes(serviceId) {
          var from := connectingFrom.value;
          connections := connections + [Connection(from + "-" + serviceId + "-" + stamp, from, serviceId, None, connectionType)];
          isConnecting := false;
          connectingFrom := None;
        } else {
          connectingFrom := Some(serviceId);
        }
      } else {
        selected := if selected == Some(serviceId) then None else Some(serviceId);
      }
    }

    /** `handleServiceClick` with the start re-checked: a start that is no longer on the canvas
        is treated like no start at all. Clicking a node on the canvas then keeps every
        connection between nodes on the canvas. */
    method ServiceClickChecked(serviceId: string, stamp: string)
      modifies this
      ensures nodes == old(nodes) && connectionType == old(connectionType)
      ensures old(Completes(serviceId)) && old(HasNode(nodes, connectingFrom.value)) ==>
                connections == old(connections) +
                  [Connection(old(connectingFrom).value + "-" + serviceId + "-" + stamp,
                              old(connectingFrom).value, serviceId, None, old(connectionType))] &&
                !isConnecting && connectingFrom == None && selected == old(selected)
      ensures old(isConnecting) && !(old(Completes(serviceId)) && old(HasNode(nodes, connectingFrom.value))) ==>
                connections == old(connections) && isConnecting && connectingFrom == Some(serviceId) &&
                selected == old(selected)
      ensures !old(isConnecting) ==>
                connections == old(connections) && !isConnecting && connectingFrom == old(connectingFrom) &&
                selected == (if old(selected) == Some(serviceId) then None else Some(serviceId))
      ensures old(NoSelfLoops(connections)) ==> NoSelfLoops(connections)
      ensures old(Closed()) && HasNode(nodes, serviceId) ==> Closed()
      ensures suggestions == old(suggestions) && score == old(score) && feedback == old(feedback)
      ensures architectureName == old(architectureName) && showCertPaths == old(showCertPaths)
    {
      if isConnecting {
        if Completes(serviceId) && HasNode(nodes, connectingFrom.value) {
          var from := connectingFrom.value;
          connections := connections + [Connection(from + "-" + serviceId + "-" + stamp, from, serviceId, None, connectionType)];
          isConnecting := false;
          connectingFrom := None;
        } else {
          connectingFrom := Some(serviceId);
        }
      } else {
        selected := if selected == Some(serviceId) then None else Some(serviceId);
      }
    }

    /** `removeService`: the node with the id goes, with exactly the connections that have it as
        an endpoint; everything else keeps its order; the selection is cleared. Connect mode
        is left as it was. */
    method RemoveService(serviceId: string)
      modifies this
      ensures nodes == Filter(old(nodes), (n: Node) => n.id != serviceId)
      ensures connections == Filter(old(connections),
                                    (c: Connection) => c.fromServiceId != serviceId && c.toServiceId != serviceId)
      ensures forall n :: n in nodes <==> n in old(nodes) && n.id != serviceId
      ensures forall c :: c in connections <==>
                c in old(connections) && c.fromServiceId != serviceId && c.toServiceId != serviceId
      ensures selected == None
      ensures isConnecting == old(isConnecting) && connectingFrom == old(connectingFrom)
      ensures connectionType == old(connectionType)
      ensures old(Closed()) ==> Closed()
      ensures old(NoSelfLoops(connections)) ==> NoSelfLoops(connections)
      ensures suggestions == old(suggestions) && score == old(score) && feedback == old(feedback)
      ensures architectureName == old(architectureName) && showCertPaths == old(showCertPaths)
    {
      var before := nodes;
      nodes := Filter(nodes, (n: Node) => n.id != serviceId);
      connections := Filter(connections, (c: Connection) => c.fromServiceId != serviceId && c.toServiceId != serviceId);
      selected := None;
      forall c | c in connections && EdgesClosed(before, old(connections))
        ensures HasNode(nodes, c.fromServiceId) && HasNode(nodes, c.toServiceId)
      {
        StillPresent(before, c.fromServiceId, serviceId);
        StillPresent(before, c.toServiceId, serviceId);
      }
    }

    /** `clearCanvas`. Score and feedback are left for the next evaluation to null. */
    method ClearCanvas()
      modifies this
      ensures nodes == [] && connections == [] && selected == None
      ensures suggestions == [] && architectureName == ""
      ensures score == old(score) && feedback == old(feedback)
      ensures isConnecting == old(isConnecting) && connectingFrom == old(connectingFrom)
      ensures connectionType == old(connectionType) && showCertPaths == old(showCertPaths)
      ensures Closed()
    {
      nodes := [];
      connections := [];
      selected := None;
      suggestions := [];
      architectureName := "";
    }

    /** `loadTemplate`: with no catalogue loaded nothing happens; otherwise the template's
        services found in the catalogue become the nodes, its connections whose ends resolve
        become the connections, and the template's name becomes the architecture name. */
    method LoadTemplate(template: Template, catalogue: Option<seq<AwsService>>, stamp: string)
      modifies this
      ensures catalogue.None? ==>
                nodes == old(nodes) && connections == old(connections) && architectureName == old(architectureName)
      ensures catalogue.Some? ==>
                nodes == TemplateNodes(template.services, catalogue.value, stamp) &&
                connections == TemplateConnections(template.connections, nodes, stamp) &&
                architectureName == template.name
      ensures catalogue.Some? ==> Closed()
      ensures selected == old(selected) && isConnecting == old(isConnecting) && connectingFrom == old(connectingFrom)
      ensures connectionType == old(connectionType) && showCertPaths == old(showCertPaths)
      ensures suggestions == old(suggestions) && score == old(score) && feedback == old(feedback)
    {
      if catalogue.None? {
        return;
      }
      var newServices := TemplateNodesPass(template.services, catalogue.value, stamp);
      var newConnections := TemplateConnectionsPass(template.connections, newServices, stamp);
      nodes := newServices;
      connections := newConnections;
      architectureName := template.name;
    }

    /** `addSuggestedService`: the named catalogue service is appended at the next grid cell;
        a name missing from the catalogue (or no catalogue) changes nothing. */
    method AddSuggestedService(serviceName: string, catalogue: Option<seq<AwsService>>, stamp: string)
      modifies this
      ensures var found := if catalogue.Some? then FindByName(catalogue.value, serviceName) else None;
              if found.Some? then
                var slot := GridSlot(|old(nodes)|);
                nodes == old(nodes) + [Node(found.value.name + "-" + stamp, found.value, slot.0, slot.1,
                                            Some(found.value.name))]
              else nodes == old(nodes)
      ensures connections == old(connections) && selected == old(selected)
      ensures isConnecting == old(isConnecting) && connectingFrom == old(connectingFrom)
      ensures connectionType == old(connectionType)
      ensures old(Closed()) ==> Closed()
      ensures suggestions == old(suggestions) && score == old(score) && feedback == old(feedback)
      ensures architectureName == old(architectureName) && showCertPaths == old(showCertPaths)
    {
      if catalogue.None? {
        return;
      }
      var service := FindByName(catalogue.value, serviceName);
      if service.None? {
        return;
      }
      var slot := GridSlot(|nodes|);
      var before := nodes;
      nodes := nodes + [Node(service.value.name + "-" + stamp, service.value, slot.0, slot.1, Some(service.value.name))];
      forall c | c in connections && EdgesClosed(before, connections)
        ensures HasNode(nodes, c.fromServiceId) && HasNode(nodes, c.toServiceId)
      {
        Extended(before, nodes, c.fromServiceId);
        Extended(before, nodes, c.toServiceId);
      }
    }

    /** `moveService`: only the node with the id moves, by the deltas. */
    method MoveService(serviceId: string, dx: int, dy: int)
      modifies this
      ensures nodes == MoveNodes(old(nodes), serviceId, dx, dy)
      ensures connections == old(connections) && selected == old(selected)
      ensures isConnecting == old(isConnecting) && connectingFrom == old(connectingFrom)
      ensures connectionType == old(connectionType)
      ensures old(Closed()) ==> Closed()
      ensures suggestions == old(suggestions) && score == old(score) && feedback == old(feedback)
      ensures architectureName == old(architectureName) && showCertPaths == old(showCertPaths)
    {
      var before := nodes;
      nodes := MoveNodes(nodes, serviceId, dx, dy);
      forall c | c in connections && EdgesClosed(before, connections)
        ensures HasNode(nodes, c.fromServiceId) && HasNode(nodes, c.toServiceId)
      {
        SameIds(before, nodes, serviceId, dx, dy, c.fromServiceId);
        SameIds(before, nodes, serviceId, dx, dy, c.toServiceId);
      }
    }

    /** `getHighlightedCerts`: with certification paths shown, every track of every placed
        service; otherwise none. */
    method HighlightedCerts() returns (allCerts: set<string>)
      ensures showCertPaths ==> allCerts == CertificationsOf(nodes)
      ensures !showCertPaths ==> allCerts == {}
    {
      if !showCertPaths {
        return {};
      }
      allCerts := {};
      var i := 0;
      while i < |nodes|
        invariant 0 <= i <= |nodes|
        invariant allCerts == CertificationsOf(nodes[..i])
      {
        assert nodes[..i + 1][..i] == nodes[..i];
        var tracks := nodes[i].service.certificationTracks;
        if tracks.Some? {
          var k := 0;
          var before := allCerts;
          while k < |tracks.value|
            invariant 0 <= k <= |tracks.value|
            invariant allCerts == before + set t | t in tracks.value[..k]
          {
            assert tracks.value[..k + 1] == tracks.value[..k] + [tracks.value[k]];
            allCerts := allCerts + {tracks.value[k]};
            k := k + 1;
          }
          assert tracks.value[..k] == tracks.value;
        }
        i := i + 1;
      }
      assert nodes[..i] == nodes;
    }

    /** The render-time `suggestions.sort(...)`, which reorders the stored list in place. */
    method SortSuggestions()
      modifies this
      ensures suggestions == SortForDisplay(old(suggestions))
      ensures nodes == old(nodes) && connections == old(connections) && selected == old(selected)
      ensures isConnecting == old(isConnecting) && connectingFrom == old(connectingFrom)
      ensures connectionType == old(connectionType) && score == old(score) && feedback == old(feedback)
      ensures architectureName == old(architectureName) && showCertPaths == old(showCertPaths)
    {
      suggestions := SortForDisplay(suggestions);
    }
  }

  lemma StillPresent(nodes: seq<Node>, id: string, removed: string)
    requires HasNode(nodes, id) && id != removed
    ensures HasNode(Filter(nodes, (n: Node) => n.id != removed), id)
  {
    var i :| 0 <= i < |nodes| && nodes[i].id == id;
    InNodes(Filter(nodes, (n: Node) => n.id != removed), nodes[i]);
  }

  lemma Extended(before: seq<Node>, after: seq<Node>, id: string)
    requires HasNode(before, id) && |before| <= |after| && after[..|before|] == before
    ensures HasNode(after, id)
  {
    var i :| 0 <= i < |before| && before[i].id == id;
    assert after[i] == before[i];
  }

  lemma SameIds(before: seq<Node>, after: seq<Node>, moved: string, dx: int, dy: int, id: string)
    requires after == MoveNodes(before, moved, dx, dy) && HasNode(before, id)
    ensures HasNode(after, id)
  {
    var i :| 0 <= i < |before| && before[i].id == id;
    assert after[i].id == before[i].id;
  }

  /** Connect mode keeps its start across `removeService`. On any canvas with two nodes `a` and
      `z`: enter connect mode, click `a`, remove `a`, click `z`, and the canvas holds a new
      connection from `a`, which is no longer on the canvas. */
  method DanglingEdgeAsWritten(b: Builder, a: string, z: string, stamp1: string, stamp2: string)
    requires HasNode(b.nodes, a) && HasNode(b.nodes, z) && a != z && a != ""
    requires b.isConnecting && b.connectingFrom == None && b.Closed()
    modifies b
    ensures !HasNode(b.nodes, a) && HasNode(b.nodes, z)
    ensures |b.connections| > 0 && b.connections[|b.connections| - 1].fromServiceId == a
    ensures !b.Closed()
  {
    b.ServiceClick(a, stamp1);
    b.RemoveService(a);
    StillPresent(old(b.nodes), z, a);
    b.ServiceClick(z, stamp2);
    assert b.connections[|b.connections| - 1] in b.connections;
  }

  /** The same steps with the start re-checked: the click on `z` starts a new connection
      instead, and every connection still joins two nodes on the canvas. */
  method DanglingEdgeChecked(b: Builder, a: string, z: string, stamp1: string, stamp2: string)
    requires HasNode(b.nodes, a) && HasNode(b.nodes, z) && a != z && a != ""
    requires b.isConnecting && b.connectingFrom == None && b.Closed()
    modifies b
    ensures !HasNode(b.nodes, a) && HasNode(b.nodes, z)
    ensures b.connections == Filter(old(b.connections), (c: Connection) => c.fromServiceId != a && c.toServiceId != a)
    ensures b.isConnecting && b.connectingFrom == Some(z)
    ensures b.Closed()
  {
    b.ServiceClickChecked(a, stamp1);
    b.RemoveService(a);
    StillPresent(old(b.nodes), z, a);
    b.ServiceClickChecked(z, stamp2);
  }
}
