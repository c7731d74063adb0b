/** The records of the architecture builder page: placed nodes, connections between them,
    advisory suggestions, the six-part score with its letter grade, and detailed feedback. */
module Architecture {
  import opened Basics
  import opened Services

  /** A service placed on the canvas. Coordinates are whole pixels; `labelText` is the
      optional `label` (a keyword in Dafny). */
  datatype Node = Node(id: string, service: AwsService, x: int, y: int, labelText: Option<string>)

  datatype ConnectionType = Sync | Async | Data | Network

  /** A directed edge between two placed nodes, by node id. */
  datatype Connection = Connection(
    id: string,
    fromServiceId: string,
    toServiceId: string,
    labelText: Option<string>,
    kind: ConnectionType)

  datatype Priority = Low | Medium | High | Critical

  datatype SuggestionCategory = Security | Performance | Cost | Reliability | BestPractice

  /** One advisory record produced by the suggestion rules. */
  datatype Suggestion = Suggestion(
    message: string,
    suggestedServices: seq<string>,
    priority: Priority,
    category: SuggestionCategory,
    impact: nat,
    reasoning: string)

  datatype Grade = APlus | A | BPlus | B | CPlus | C | D | F

  datatype ArchitectureScore = ArchitectureScore(
    security: nat,
    performance: nat,
    costEfficiency: nat,
    reliability: nat,
    scalability: nat,
    bestPractices: nat,
    total: nat,
    grade: Grade)

  datatype DetailedFeedback = DetailedFeedback(
    strengths: seq<string>,
    weaknesses: seq<string>,
    recommendations: seq<string>,
    certificationAlignment: seq<string>)

  /** `canvasServices.map(cs => cs.service.name)`. */
  function NamesOf(nodes: seq<Node>): (names: seq<string>)
    ensures |names| == |nodes|
    ensures forall i :: 0 <= i < |nodes| ==> names[i] == nodes[i].service.name
  {
    if nodes == [] then [] else [nodes[0].service.name] + NamesOf(nodes[1..])
  }

  /** `canvasServices.map(cs => cs.service.category)`: one entry per node, repeats included. */
  function CategoriesOf(nodes: seq<Node>): (categories: seq<string>)
    ensures |categories| == |nodes|
    ensures forall i :: 0 <= i < |nodes| ==> categories[i] == nodes[i].service.category
  {
    if nodes == [] then [] else [nodes[0].service.category] + CategoriesOf(nodes[1..])
  }

  /** The distinct names of a list: `names.includes(n)` holds exactly for the members. */
  function NameSet(names: seq<string>): (present: set<string>)
    ensures forall n :: n in present <==> n in names
    ensures |present| <= |names|
  {
    if names == [] then {} else {names[0]} + NameSet(names[1..])
  }

  /** Edge colour by connection type. */
  function ConnectionColor(kind: ConnectionType): (colour: string)
    ensures |colour| == 7 && colour[0] == '#'
    ensures kind == Sync <==> colour == "#3B82F6"
    ensures kind == Async <==> colour == "#10B981"
    ensures kind == Data <==> colour == "#8B5CF6"
    ensures kind == Network <==> colour == "#F59E0B"
  {
    match kind
    case Sync => "#3B82F6"
    case Async => "#10B981"
    case Data => "#8B5CF6"
    case Network => "#F59E0B"
  }
}
