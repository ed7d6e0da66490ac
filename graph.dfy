/** api/workflow/graph.py: `create_receipt_workflow` builds a LangGraph
  * `StateGraph` by successive `add_node`, `set_entry_point` and `add_edge`
  * calls and compiles it. A compiled graph runs its nodes from the entry
  * point along the edges until END; `RunNodes` is what running a sequence
  * of stages does to the state and the tables. */
module Graph {
  import opened Wrappers
  import opened Schemas
  import opened TextractFormat
  import opened LlmProvider
  import opened DatabaseOps
  import opened WorkflowState
  import opened Nodes
  import Config

  /** The four node names; each stands for one `WorkflowNodes` method. */
  datatype NodeName = Ocr | Extraction | Validation | Persistence
  {
    function Name(): string
    {
      match this
      case Ocr => "ocr"
      case Extraction => "extraction"
      case Validation => "validation"
      case Persistence => "persistence"
    }
  }

  /** Where an edge leads: a node, or END. */
  datatype Target = To(node: NodeName) | End

  /** A compiled graph: its nodes, its entry point and each node's one
    * outgoing edge. */
  datatype CompiledGraph = CompiledGraph(nodes: seq<NodeName>, entry: Option<NodeName>, edges: map<NodeName, Target>)

  /** LangGraph's default bound on the steps of one run. */
  const RECURSION_LIMIT: nat := 25

  /** The nodes a run visits from `from` until END, or `None` when it meets
    * a node without an edge or exceeds `steps` steps. */
  function Walk(g: CompiledGraph, from: Target, steps: nat): Option<seq<NodeName>>
    decreases steps
  {
    match from
    case End => Some([])
    case To(n) =>
      if steps == 0 || n !in g.edges then None
      else
        match Walk(g, g.edges[n], steps - 1)
        case None => None
        case Some(rest) => Some([n] + rest)
  }

  /** The order in which a run of the compiled graph executes its nodes. */
  function ExecutionOrder(g: CompiledGraph): Option<seq<NodeName>>
  {
    match g.entry
    case None => None
    case Some(n) => Walk(g, To(n), RECURSION_LIMIT)
  }

  /** The receipt workflow's stages in the order `create_receipt_workflow`
    * wires them. */
  const RECEIPT_STAGES: seq<NodeName> := [Ocr, Extraction, Validation, Persistence]

  /** The builder: nodes, entry point and edges are set by its methods. */
  class StateGraph {
    var nodes: seq<NodeName>
    var entry: Option<NodeName>
    var edges: map<NodeName, Target>

    constructor ()
      ensures nodes == [] && entry.None? && edges == map[]
    {
      nodes := [];
      entry := None;
      edges := map[];
    }

    method AddNode(n: NodeName)
      modifies this
      ensures nodes == old(nodes) + [n] && entry == old(entry) && edges == old(edges)
    {
      nodes := nodes + [n];
    }

    method SetEntryPoint(n: NodeName)
      modifies this
      ensures entry == Some(n) && nodes == old(nodes) && edges == old(edges)
    {
      entry := Some(n);
    }

    method AddEdge(from: NodeName, to: Target)
      modifies this
      ensures edges == old(edges)[from := to] && nodes == old(nodes) && entry == old(entry)
    {
      edges := edges[from := to];
    }

    method Compile() returns (g: CompiledGraph)
      ensures g == CompiledGraph(nodes, entry, edges)
    {
      g := CompiledGraph(nodes, entry, edges);
    }
  }

  /** `create_receipt_workflow`: every run enters at ocr and then visits
    * extraction, validation and persistence before END. */
  method CreateReceiptWorkflow() returns (g: CompiledGraph)
    ensures g.nodes == RECEIPT_STAGES
    ensures g.entry == Some(Ocr)
    ensures g.edges == map[Ocr := To(Extraction), Extraction := To(Validation),
                           Validation := To(Persistence), Persistence := End]
    ensures ExecutionOrder(g) == Some(RECEIPT_STAGES)
  {
    var workflow := new StateGraph();
    workflow.AddNode(Ocr);
    workflow.AddNode(Extraction);
    workflow.AddNode(Validation);
    workflow.AddNode(Persistence);
    workflow.SetEntryPoint(Ocr);
    workflow.AddEdge(Ocr, To(Extraction));
    workflow.AddEdge(Extraction, To(Validation));
    workflow.AddEdge(Validation, To(Persistence));
    workflow.AddEdge(Persistence, End);
    g := workflow.Compile();
    WalkReceiptChain(g);
  }

  lemma WalkReceiptChain(g: CompiledGraph)
    requires g.entry == Some(Ocr)
    requires g.edges == map[Ocr := To(Extraction), Extraction := To(Validation),
                            Validation := To(Persistence), Persistence := End]
    ensures ExecutionOrder(g) == Some(RECEIPT_STAGES)
  {
    assert Persistence in g.edges && g.edges[Persistence] == End;
    assert Validation in g.edges && g.edges[Validation] == To(Persistence);
    assert Extraction in g.edges && g.edges[Extraction] == To(Validation);
    assert Ocr in g.edges && g.edges[Ocr] == To(Extraction);
    assert Walk(g, End, RECURSION_LIMIT - 4) == Some([]);
    assert [Persistence] + [] == [Persistence];
    assert [Validation] + [Persistence] == [Validation, Persistence];
    assert [Extraction] + [Validation, Persistence] == [Extraction, Validation, Persistence];
    assert [Ocr] + [Extraction, Validation, Persistence] == RECEIPT_STAGES;
    assert Walk(g, To(Persistence), RECURSION_LIMIT - 3) == Some([Persistence]);
    assert Walk(g, To(Validation), RECURSION_LIMIT - 2) == Some([Validation, Persistence]);
    assert Walk(g, To(Extraction), RECURSION_LIMIT - 1) == Some([Extraction, Validation, Persistence]);
    assert Walk(g, To(Ocr), RECURSION_LIMIT) == Some([Ocr, Extraction, Validation, Persistence]);
  }

  // ---------------------------------------------------------------------
  // Running stages.
  // ---------------------------------------------------------------------

  /** What the stages consult besides the state: the settings table, the
    * environment, Textract, the language-model vendors and the decoder. */
  datatype Collaborators = Collaborators(
    settings: map<string, string>,
    env: Config.EnvSettings,
    analyze: TextractService,
    vendor: VendorRequest -> Result<string, string>,
    parse: string -> Result<ReceiptExtraction, string>)

  /** Which database accesses of a run raise: the settings lookups of the
    * OCR and extraction stages and the writes of persistence. */
  datatype RunFaults = RunFaults(ocrSettings: Option<string>, extractionSettings: Option<string>, persistence: PersistenceFaults)

  function ReadSettings(settings: map<string, string>, fault: Option<string>): (r: SettingsRead)
    ensures fault.Some? ==> r == Failure(fault.value)
    ensures fault.None? ==> r == Success(settings)
  {
    if fault.Some? then Failure(fault.value) else Success(settings)
  }

  /** One node's effect. */
  function RunNode(n: NodeName, j: Job, st: Store, c: Collaborators, f: RunFaults): StageResult
  {
    match n
    case Ocr => StageResult(OcrStage(j, ReadSettings(c.settings, f.ocrSettings), c.env, c.analyze), st, None)
    case Extraction =>
      StageResult(ExtractionStage(j, ReadSettings(c.settings, f.extractionSettings), c.env, c.vendor, c.parse), st, None)
    case Validation => StageResult(ValidationStage(j), st, None)
    case Persistence => PersistenceStage(j, st, f.persistence)
  }

  /** The nodes in turn; an exception ends the run. */
  function RunNodes(ns: seq<NodeName>, j: Job, st: Store, c: Collaborators, f: RunFaults): StageResult
    decreases |ns|
  {
    if ns == [] then StageResult(j, st, None)
    else
      var r := RunNode(ns[0], j, st, c, f);
      if r.raised.Some? then r else RunNodes(ns[1..], r.job, r.store, c, f)
  }

  /** Only persistence can raise, so every stage runs whatever the status
    * the earlier ones left: the run is the composition of the four. */
  lemma ReceiptRunIsComposition(j: Job, st: Store, c: Collaborators, f: RunFaults)
    ensures RunNodes(RECEIPT_STAGES, j, st, c, f)
         == PersistenceStage(ValidationStage(ExtractionStage(OcrStage(j, ReadSettings(c.settings, f.ocrSettings), c.env, c.analyze),
                                                             ReadSettings(c.settings, f.extractionSettings), c.env, c.vendor, c.parse)),
                             st, f.persistence)
  {
    var j1 := OcrStage(j, ReadSettings(c.settings, f.ocrSettings), c.env, c.analyze);
    var j2 := ExtractionStage(j1, ReadSettings(c.settings, f.extractionSettings), c.env, c.vendor, c.parse);
    var j3 := ValidationStage(j2);
    assert RECEIPT_STAGES[1..] == [Extraction, Validation, Persistence];
    assert RECEIPT_STAGES[1..][1..] == [Validation, Persistence];
    assert RECEIPT_STAGES[1..][1..][1..] == [Persistence];
    assert RunNodes([Persistence], j3, st, c, f) == PersistenceStage(j3, st, f.persistence);
  }

  /** One node's method applied to the shared state. */
  method Step(n: NodeName, state: ReceiptState, tables: ReceiptTables, c: Collaborators, f: RunFaults)
    returns (raised: Option<string>)
    modifies state, tables
    ensures StageResult(state.Snapshot(), tables.Contents(), raised)
            == RunNode(n, old(state.Snapshot()), old(tables.Contents()), c, f)
  {
    match n {
      case Ocr =>
        OcrNode(state, ReadSettings(c.settings, f.ocrSettings), c.env, c.analyze);
        raised := None;
      case Extraction =>
        ExtractionNode(state, ReadSettings(c.settings, f.extractionSettings), c.env, c.vendor, c.parse);
        raised := None;
      case Validation =>
        ValidationNode(state);
        raised := None;
      case Persistence =>
        raised := PersistenceNode(state, tables, f.persistence);
    }
  }

  /** The compiled graph's run: each node in `ExecutionOrder(g)` applied
    * to the shared state by its method. */
  method Invoke(g: CompiledGraph, state: ReceiptState, tables: ReceiptTables, c: Collaborators, f: RunFaults)
    returns (raised: Option<string>)
    requires ExecutionOrder(g).Some?
    modifies state, tables
    ensures StageResult(state.Snapshot(), tables.Contents(), raised)
            == RunNodes(ExecutionOrder(g).value, old(state.Snapshot()), old(tables.Contents()), c, f)
  {
    var order := ExecutionOrder(g).value;
    ghost var j0 := state.Snapshot();
    ghost var st0 := tables.Contents();
    var k := 0;
    while k < |order|
      invariant 0 <= k <= |order|
      invariant RunNodes(order, j0, st0, c, f) == RunNodes(order[k..], state.Snapshot(), tables.Contents(), c, f)
    {
      assert order[k..][1..] == order[k + 1..];
      var r := Step(order[k], state, tables, c, f);
      if r.Some? {
        return r;
      }
      k := k + 1;
    }
    raised := None;
  }
}
