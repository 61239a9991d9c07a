/**
 Which model endpoint the runtime talks to: the backend, its node and its base URL, changed by
 commands that select a backend, a node, a target or a model; what each command leaves in the
 session file; and where resuming that file leads.
 */
module Endpoint {
  import opened Basics
  import opened Text

  datatype Node = Node(name: string, apiBase: string, model: string, hostdUrl: string)

  /** Nodes by key with the keys in sorted order, the aliases of `use` targets, how a model name
      resolves against the registry, which models `/model` may select, which are available for direct
      use (neither spawn-only nor gated), and which a resumed session may show. */
  datatype Config = Config(
    studioNodes: map<string, Node>, studioOrder: seq<string>,
    llamaNodes: map<string, Node>, llamaOrder: seq<string>,
    aliases: map<string, string>, resolve: string -> Option<string>,
    allowed: string -> bool, available: string -> bool, exposed: seq<string>)

  /** `hostd` is the host daemon variable in the environment. */
  datatype State = State(
    backend: string, apiBase: string, studioBase: string, llamaBase: string,
    studioNode: string, llamaNode: string, llamaModel: string, activeModel: string,
    hostd: Option<string>)

  ghost predicate LoadedNodes(nodes: map<string, Node>, order: seq<string>) {
    && (forall k :: k in nodes ==> k != "" && Normalize(k) == k && nodes[k].name == k)
    && forall k :: k in order <==> k in nodes
  }

  /** What loading the registry guarantees: nodes are filed under their own normalized names. */
  ghost predicate Loaded(cfg: Config) {
    LoadedNodes(cfg.studioNodes, cfg.studioOrder) && LoadedNodes(cfg.llamaNodes, cfg.llamaOrder)
  }

  const STUDIO := "studio"
  const LLAMACPP := "llamacpp"
  const SPECIALISTS := ["din", "navi", "nayru"]

  function StripSlash(url: string): string {
    if url != "" && url[|url| - 1] == '/' then StripSlash(url[..|url| - 1]) else url
  }

  predicate ValidBackend(name: string) {
    name == STUDIO || name == LLAMACPP
  }

  // The base URL that belongs to the backend.
  function BaseOf(s: State): string {
    if s.backend == LLAMACPP then s.llamaBase else s.studioBase
  }

  /** The runtime talks to the base URL of its backend. */
  predicate Coherent(s: State) {
    ValidBackend(s.backend) && s.apiBase == BaseOf(s)
  }

  function WithBackend(s: State, name: string): State {
    var n := s.(backend := name);
    n.(apiBase := BaseOf(n))
  }

  function ApplyStudio(cfg: Config, s: State, node: Node): State {
    var base := StripSlash(node.apiBase);
    s.(studioNode := node.name, studioBase := base, backend := STUDIO, apiBase := base,
       hostd := if node.hostdUrl != "" then Some(StripSlash(node.hostdUrl)) else None,
       activeModel := if node.model == "" then s.activeModel
                      else match cfg.resolve(node.model) case Some(m) => m case None => s.activeModel)
  }

  function ApplyLlama(s: State, node: Node): State {
    var base := StripSlash(node.apiBase);
    s.(llamaNode := node.name, llamaBase := base, llamaModel := node.model, backend := LLAMACPP, apiBase := base)
  }

  function SelectStudio(cfg: Config, s: State, name: string): State {
    var key := Normalize(name);
    if key != "" && key in cfg.studioNodes then ApplyStudio(cfg, s, cfg.studioNodes[key]) else s
  }

  function SelectLlama(cfg: Config, s: State, name: string): State {
    var key := Normalize(name);
    if key != "" && key in cfg.llamaNodes then ApplyLlama(s, cfg.llamaNodes[key]) else s
  }

  // The first node, in the order of the keys, that serves the model.
  function Serving(nodes: map<string, Node>, order: seq<string>, model: string): Option<string> {
    if order == [] then None
    else if order[0] in nodes && Normalize(nodes[order[0]].model) == model then Some(order[0])
    else Serving(nodes, order[1..], model)
  }

  function Use(cfg: Config, s: State, target: string): (State, bool) {
    var requested := Normalize(target);
    if requested == "" then (s, false) else
      var name := if requested in cfg.aliases then cfg.aliases[requested] else requested;
      if name in cfg.studioNodes then
        (SelectStudio(cfg, s, name), Resolves(cfg.studioNodes, Some(name)))
      else if name in cfg.llamaNodes then
        (SelectLlama(cfg, s, name), Resolves(cfg.llamaNodes, Some(name)))
      else match cfg.resolve(name)
        case None => (s, false)
        case Some(model) => (UseModel(cfg, s, model), true)
  }

  function UseModel(cfg: Config, s: State, model: string): State {
    match Serving(cfg.studioNodes, cfg.studioOrder, model)
    case Some(key) => SelectStudio(cfg, s, key)
    case None =>
      match Serving(cfg.llamaNodes, cfg.llamaOrder, model)
      case Some(key) => SelectLlama(cfg, s, key)
      case None => WithBackend(s, STUDIO).(activeModel := model)
  }

  // A change of route that ends here is refused, after it has been made.
  predicate Refuses(cfg: Config, s: State) {
    s.backend == STUDIO && !cfg.available(s.activeModel)
  }

  // The target is unknown, or known and applied, or applied and then refused with an exception.
  datatype Reply = Unknown | Applied | Raised

  function UseReply(cfg: Config, s: State, target: string): Reply {
    var (n, ok) := Use(cfg, s, target);
    if !ok then Unknown else if Refuses(cfg, n) then Raised else Applied
  }

  /** What a saved session says; absent entries are `None`. */
  datatype Meta = Meta(
    activeModel: Option<string>, backend: Option<string>,
    studioBase: Option<string>, studioNode: Option<string>,
    llamaBase: Option<string>, llamaModel: Option<string>, llamaNode: Option<string>)

  predicate Given(entry: Option<string>) {
    entry.Some? && entry.value != ""
  }

  function RestoreModel(cfg: Config, s: State, meta: Meta): State {
    if Given(meta.activeModel) then
      match cfg.resolve(meta.activeModel.value)
      case Some(m) => s.(activeModel := m)
      case None => s
    else s
  }

  function RestoreBackend(s: State, meta: Meta): State {
    if meta.backend.Some? && ValidBackend(meta.backend.value) then WithBackend(s, meta.backend.value) else s
  }

  function RestoreStudio(cfg: Config, s: State, meta: Meta): State {
    var n := if Given(meta.studioBase) then s.(studioBase := StripSlash(meta.studioBase.value)) else s;
    if meta.studioNode.None? then n
    else if Normalize(meta.studioNode.value) != "" then SelectStudio(cfg, n, meta.studioNode.value)
    else n.(studioNode := "")
  }

  function RestoreLlama(cfg: Config, s: State, meta: Meta): State {
    var n := if Given(meta.llamaBase) then s.(llamaBase := StripSlash(meta.llamaBase.value)) else s;
    var k := if Given(meta.llamaModel) then n.(llamaModel := meta.llamaModel.value) else n;
    if meta.llamaNode.None? then k
    else if Normalize(meta.llamaNode.value) != "" then SelectLlama(cfg, k, meta.llamaNode.value)
    else k.(llamaNode := "")
  }

  function Realign(s: State): State {
    if ValidBackend(s.backend) then s.(apiBase := BaseOf(s)) else s
  }

  function Restore(cfg: Config, s: State, meta: Meta): State {
    Realign(RestoreLlama(cfg, RestoreStudio(cfg, RestoreBackend(RestoreModel(cfg, s, meta), meta), meta), meta))
  }

  // A resumed session falls back to the first model it may show.
  function Coerced(cfg: Config, s: State): State {
    if s.activeModel in cfg.exposed || cfg.exposed == [] then s else s.(activeModel := cfg.exposed[0])
  }

  // ---------------------------------------------------------------------------------------------
  // The session file
  // ---------------------------------------------------------------------------------------------

  datatype Record =
    | Started(meta: Meta)
    | ModelSwitch(model: string)
    | BackendSwitch(backend: string)
    | Update(changes: Meta)

  const NOTHING := Meta(None, None, None, None, None, None, None)

  function Over<T>(before: Option<T>, entry: Option<T>): Option<T> {
    if entry.Some? then entry else before
  }

  function Overwrite(meta: Meta, changes: Meta): Meta {
    Meta(Over(meta.activeModel, changes.activeModel), Over(meta.backend, changes.backend),
         Over(meta.studioBase, changes.studioBase), Over(meta.studioNode, changes.studioNode),
         Over(meta.llamaBase, changes.llamaBase), Over(meta.llamaModel, changes.llamaModel),
         Over(meta.llamaNode, changes.llamaNode))
  }

  function LoadRecord(meta: Meta, r: Record): Meta {
    match r
    case Started(m) => Overwrite(meta, m)
    case ModelSwitch(model) => if model != "" then meta.(activeModel := Some(model)) else meta
    case BackendSwitch(backend) => if backend != "" then meta.(backend := Some(backend)) else meta
    case Update(changes) => Overwrite(meta, changes)
  }

  function Load(file: seq<Record>): Meta {
    if file == [] then NOTHING else LoadRecord(Load(file[..|file| - 1]), file[|file| - 1])
  }

  // What the first record of a session says.
  function Saved(s: State): Meta {
    EndpointOf(s).(activeModel := Some(s.activeModel), backend := Some(s.backend))
  }

  // What a `use` command writes.
  function EndpointOf(s: State): Meta {
    Meta(None, None, Some(s.studioBase), Some(s.studioNode),
         Some(s.llamaBase), Some(s.llamaModel), Some(s.llamaNode))
  }

  // ---------------------------------------------------------------------------------------------
  // Commands
  // ---------------------------------------------------------------------------------------------

  datatype Live = Live(state: State, file: seq<Record>)

  /** A resume may fail after the state is restored and before the file is attached. */
  datatype Command =
    | Backend(name: string)
    | UseTarget(target: string)
    | StudioNode(name: string)
    | LlamaNode(name: string)
    | SelectModel(name: string)
    | Specialist(name: string)
    | Resume(file: seq<Record>, attached: bool)

  function Begin(s: State): Live {
    Live(s, [Started(Saved(s))])
  }

  function SwitchRecords(before: State, after: State): seq<Record> {
    if before.backend != after.backend then [BackendSwitch(after.backend)] else []
  }

  function ModelRecords(before: State, after: State): seq<Record> {
    if before.activeModel != after.activeModel then [ModelSwitch(after.activeModel)] else []
  }

  function UseRecords(before: State, after: State): seq<Record> {
    SwitchRecords(before, after) + ModelRecords(before, after) + [Update(EndpointOf(after))]
  }

  // The model that `/model` or `/specialist` selects, if any.
  function Selected(cfg: Config, s: State, c: Command): Option<string> {
    if s.backend != STUDIO then None else
      match c
      case SelectModel(name) =>
        var model := cfg.resolve(name);
        if model.Some? && cfg.allowed(model.value) && cfg.available(model.value) then model else None
      case Specialist(name) =>
        var model := cfg.resolve(Normalize(name));
        if model.Some? && model.value in SPECIALISTS && cfg.available(model.value) then model else None
      case _ => None
  }

  function Select(l: Live, model: Option<string>): Live {
    if model.None? then l
    else Live(l.state.(activeModel := model.value), l.file + [ModelSwitch(model.value)] + [Update(NOTHING)])
  }

  function Execute(cfg: Config, l: Live, c: Command): Live {
    var s := l.state;
    match c
    case Backend(name) =>
      if ValidBackend(Lowered(name)) then
        var n := WithBackend(s, Lowered(name));
        Live(n, l.file + SwitchRecords(s, n) + [Update(NOTHING)])
      else l
    case UseTarget(target) =>
      var n := Use(cfg, s, target).0;
      Live(n, if UseReply(cfg, s, target).Applied? then l.file + UseRecords(s, n) else l.file)
    case StudioNode(name) =>
      var n := SelectStudio(cfg, s, name);
      if Resolves(cfg.studioNodes, Some(name)) then
        Live(n, l.file + [Update(NOTHING.(studioNode := Some(n.studioNode), studioBase := Some(n.studioBase)))])
      else l
    case LlamaNode(name) =>
      var n := SelectLlama(cfg, s, name);
      if Resolves(cfg.llamaNodes, Some(name)) then
        Live(n, l.file + [Update(NOTHING.(llamaNode := Some(n.llamaNode), llamaBase := Some(n.llamaBase),
                                          llamaModel := Some(n.llamaModel)))])
      else l
    case SelectModel(_) => Select(l, Selected(cfg, s, c))
    case Specialist(_) => Select(l, Selected(cfg, s, c))
    case Resume(file, attached) =>
      Live(Coerced(cfg, Restore(cfg, s, Load(file))), if attached then file else l.file)
  }

  function ExecuteAll(cfg: Config, l: Live, cs: seq<Command>): Live {
    if cs == [] then l else Execute(cfg, ExecuteAll(cfg, l, cs[..|cs| - 1]), cs[|cs| - 1])
  }

  predicate Resolves(nodes: map<string, Node>, entry: Option<string>) {
    entry.Some? && Normalize(entry.value) != "" && Normalize(entry.value) in nodes
  }

  // ---------------------------------------------------------------------------------------------
  // The runtime object
  // ---------------------------------------------------------------------------------------------

  class Runtime {
    const cfg: Config
    var backendName: string
    var apiBase: string
    var studioApiBase: string
    var llamacppApiBase: string
    var studioNode: string
    var llamacppNode: string
    var llamacppModel: string
    var activeModel: string
    var hostd: Option<string>
    var session: seq<Record>

    function View(): State
      reads this
    {
      State(backendName, apiBase, studioApiBase, llamacppApiBase,
            studioNode, llamacppNode, llamacppModel, activeModel, hostd)
    }

    function Both(): Live
      reads this
    {
      Live(View(), session)
    }

    constructor (cfg: Config, studioBase: string, llamaBase: string, llamaModel: string, activeModel: string)
      ensures this.cfg == cfg && Coherent(View()) && Both() == Begin(View())
      ensures View() == State(STUDIO, studioBase, studioBase, llamaBase, "", "", llamaModel, activeModel, None)
    {
      this.cfg := cfg;
      backendName, apiBase, studioApiBase, llamacppApiBase := STUDIO, studioBase, studioBase, llamaBase;
      studioNode, llamacppNode, llamacppModel, this.activeModel := "", "", llamaModel, activeModel;
      hostd := None;
      session := [Started(Saved(
        State(STUDIO, studioBase, studioBase, llamaBase, "", "", llamaModel, activeModel, None)))];
    }

    method SetBackend(name: string)
      modifies this
      ensures session == old(session)
      ensures View() == WithBackend(old(View()), name)
    {
      backendName := name;
      if name == LLAMACPP {
        apiBase := llamacppApiBase;
      } else {
        apiBase := studioApiBase;
      }
    }

    method ApplyStudioNode(node: Node)
      modifies this
      ensures session == old(session)
      ensures View() == ApplyStudio(cfg, old(View()), node)
    {
      studioNode := node.name;
      studioApiBase := StripSlash(node.apiBase);
      backendName := STUDIO;
      apiBase := studioApiBase;
      hostd := if node.hostdUrl != "" then Some(StripSlash(node.hostdUrl)) else None;
      if node.model != "" {
        match cfg.resolve(node.model)
        case None =>
        case Some(m) => activeModel := m;
      }
    }

    method ApplyLlamacppNode(node: Node)
      modifies this
      ensures session == old(session)
      ensures View() == ApplyLlama(old(View()), node)
    {
      llamacppNode := node.name;
      llamacppApiBase := StripSlash(node.apiBase);
      llamacppModel := node.model;
      backendName := LLAMACPP;
      apiBase := llamacppApiBase;
    }

    method SelectStudioNode(name: string) returns (ok: bool)
      modifies this
      ensures session == old(session)
      ensures View() == SelectStudio(cfg, old(View()), name)
      ensures ok <==> Normalize(name) != "" && Normalize(name) in cfg.studioNodes
    {
      var key := Normalize(name);
      if key == "" || key !in cfg.studioNodes {
        return false;
      }
      ApplyStudioNode(cfg.studioNodes[key]);
      return true;
    }

    method SelectLlamacppNode(name: string) returns (ok: bool)
      modifies this
      ensures session == old(session)
      ensures View() == SelectLlama(cfg, old(View()), name)
      ensures ok <==> Normalize(name) != "" && Normalize(name) in cfg.llamaNodes
    {
      var key := Normalize(name);
      if key == "" || key !in cfg.llamaNodes {
        return false;
      }
      ApplyLlamacppNode(cfg.llamaNodes[key]);
      return true;
    }

    // The loop over the sorted nodes.
    method FindServing(nodes: map<string, Node>, order: seq<string>, model: string) returns (key: Option<string>)
      ensures key == Serving(nodes, order, model)
    {
      for i := 0 to |order|
        invariant Serving(nodes, order, model) == Serving(nodes, order[i..], model)
      {
        if order[i] in nodes && Normalize(nodes[order[i]].model) == model {
          return Some(order[i]);
        }
      }
      return None;
    }

    method ApplyUseTarget(target: string) returns (ok: bool)
      modifies this
      ensures session == old(session)
      ensures (View(), ok) == Use(cfg, old(View()), target)
    {
      var requested := Normalize(target);
      if requested == "" {
        return false;
      }
      var name := if requested in cfg.aliases then cfg.aliases[requested] else requested;
      if name in cfg.studioNodes {
        ok := SelectStudioNode(name);
        return;
      }
      if name in cfg.llamaNodes {
        ok := SelectLlamacppNode(name);
        return;
      }
      var model := cfg.resolve(name);
      if model.None? {
        return false;
      }
      var studio := FindServing(cfg.studioNodes, cfg.studioOrder, model.value);
      if studio.Some? {
        var _ := SelectStudioNode(studio.value);
        return true;
      }
      var llama := FindServing(cfg.llamaNodes, cfg.llamaOrder, model.value);
      if llama.Some? {
        var _ := SelectLlamacppNode(llama.value);
        return true;
      }
      SetBackend(STUDIO);
      activeModel := model.value;
      return true;
    }

    method RestoreStudioPart(meta: Meta)
      modifies this
      ensures session == old(session)
      ensures View() == RestoreStudio(cfg, old(View()), meta)
    {
      if Given(meta.studioBase) {
        studioApiBase := StripSlash(meta.studioBase.value);
      }
      if meta.studioNode.Some? {
        if Normalize(meta.studioNode.value) != "" {
          var _ := SelectStudioNode(meta.studioNode.value);
        } else {
          studioNode := "";
        }
      }
    }

    method RestoreLlamaPart(meta: Meta)
      modifies this
      ensures session == old(session)
      ensures View() == RestoreLlama(cfg, old(View()), meta)
    {
      if Given(meta.llamaBase) {
        llamacppApiBase := StripSlash(meta.llamaBase.value);
      }
      if Given(meta.llamaModel) {
        llamacppModel := meta.llamaModel.value;
      }
      if meta.llamaNode.Some? {
        if Normalize(meta.llamaNode.value) != "" {
          var _ := SelectLlamacppNode(meta.llamaNode.value);
        } else {
          llamacppNode := "";
        }
      }
    }

    method RestoreRuntimeState(meta: Meta)
      modifies this
      ensures session == old(session)
      ensures View() == Restore(cfg, old(View()), meta)
    {
      if Given(meta.activeModel) {
        match cfg.resolve(meta.activeModel.value)
        case None =>
        case Some(m) => activeModel := m;
      }
      if meta.backend.Some? && ValidBackend(meta.backend.value) {
        SetBackend(meta.backend.value);
      }
      assert View() == RestoreBackend(RestoreModel(cfg, old(View()), meta), meta);
      RestoreStudioPart(meta);
      RestoreLlamaPart(meta);
      if backendName == STUDIO {
        apiBase := studioApiBase;
      } else if backendName == LLAMACPP {
        apiBase := llamacppApiBase;
      }
    }

    // The `/backend` command.
    method HandleBackend(name: string)
      modifies this
      ensures Both() == Execute(cfg, old(Both()), Backend(name))
      ensures backendName ==
        if Lowered(name) == "studio" || Lowered(name) == "llamacpp" then Lowered(name) else old(backendName)
      ensures backendName != old(backendName) ==>
        apiBase == if backendName == "llamacpp" then llamacppApiBase else studioApiBase
    {
      var backend := Lowered(name);
      if !ValidBackend(backend) {
        return;
      }
      var before := backendName;
      SetBackend(backend);
      if before != backendName {
        session := session + [BackendSwitch(backendName)];
      }
      session := session + [Update(NOTHING)];
    }

    // The `/use` command; availability is checked after the target has been applied.
    method HandleUse(target: string) returns (reply: Reply)
      modifies this
      ensures Both() == Execute(cfg, old(Both()), UseTarget(target))
      ensures reply == UseReply(cfg, old(View()), target)
      ensures reply.Unknown? ==> View() == old(View())
      ensures !reply.Unknown? ==> (reply.Raised? <==> backendName == "studio" && !cfg.available(activeModel))
      ensures session == old(session) <==> !reply.Applied?
    {
      var beforeBackend, beforeModel := backendName, activeModel;
      var ok := ApplyUseTarget(target);
      if !ok {
        return Unknown;
      }
      if backendName == STUDIO && !cfg.available(activeModel) {
        return Raised;
      }
      ghost var before := session;
      if beforeBackend != backendName {
        session := session + [BackendSwitch(backendName)];
      }
      if beforeModel != activeModel {
        session := session + [ModelSwitch(activeModel)];
      }
      session := session + [Update(EndpointOf(View()))];
      assert session == before + UseRecords(old(View()), View());
      return Applied;
    }

    // The `/studio-node` command.
    method HandleStudioNode(name: string)
      modifies this
      ensures Both() == Execute(cfg, old(Both()), StudioNode(name))
      ensures Resolves(cfg.studioNodes, Some(name)) ==>
        backendName == "studio" && studioNode == cfg.studioNodes[Normalize(name)].name
      ensures !Resolves(cfg.studioNodes, Some(name)) ==> Both() == old(Both())
    {
      var ok := SelectStudioNode(name);
      if ok {
        session := session + [Update(NOTHING.(studioNode := Some(studioNode), studioBase := Some(studioApiBase)))];
      }
    }

    // The `/llamacpp-node` command.
    method HandleLlamacppNode(name: string)
      modifies this
      ensures Both() == Execute(cfg, old(Both()), LlamaNode(name))
      ensures Resolves(cfg.llamaNodes, Some(name)) ==>
        backendName == "llamacpp" && llamacppNode == cfg.llamaNodes[Normalize(name)].name
      ensures !Resolves(cfg.llamaNodes, Some(name)) ==> Both() == old(Both())
    {
      var ok := SelectLlamacppNode(name);
      if ok {
        session := session + [Update(NOTHING.(llamaNode := Some(llamacppNode), llamaBase := Some(llamacppApiBase),
                                              llamaModel := Some(llamacppModel)))];
      }
    }

    // The `/model` command.
    method HandleModel(name: string)
      modifies this
      ensures Both() == Execute(cfg, old(Both()), SelectModel(name))
      ensures var model := cfg.resolve(name);
        if old(backendName) == "studio" && model.Some? && cfg.allowed(model.value) && cfg.available(model.value)
        then activeModel == model.value && session == old(session) + [ModelSwitch(model.value), Update(NOTHING)]
        else Both() == old(Both())
    {
      if backendName != STUDIO {
        return;
      }
      match cfg.resolve(name)
      case None =>
      case Some(model) =>
        if cfg.allowed(model) && cfg.available(model) {
          activeModel := model;
          session := session + [ModelSwitch(model)] + [Update(NOTHING)];
        }
    }

    // The `/specialist` command; the mode it sets as well is not part of the view.
    method HandleSpecialist(name: string)
      modifies this
      ensures Both() == Execute(cfg, old(Both()), Specialist(name))
      ensures var model := cfg.resolve(Normalize(name));
        if old(backendName) == "studio" && model.Some? && cfg.available(model.value) &&
           (model.value == "din" || model.value == "navi" || model.value == "nayru")
        then activeModel == model.value && session == old(session) + [ModelSwitch(model.value), Update(NOTHING)]
        else Both() == old(Both())
    {
      if backendName != STUDIO {
        return;
      }
      match cfg.resolve(Normalize(name))
      case None =>
      case Some(model) =>
        if model in SPECIALISTS && cfg.available(model) {
          activeModel := model;
          session := session + [ModelSwitch(model)] + [Update(NOTHING)];
        }
    }

    // The `/resume` command: restore the file and go on writing to it.
    method HandleResume(file: seq<Record>, attached: bool)
      modifies this
      ensures Both() == Execute(cfg, old(Both()), Resume(file, attached))
    {
      RestoreRuntimeState(Load(file));
      if activeModel !in cfg.exposed && cfg.exposed != [] {
        activeModel := cfg.exposed[0];
      }
      if attached {
        session := file;
      }
    }
  }

  // ---------------------------------------------------------------------------------------------
  // What a `use` target selects
  // ---------------------------------------------------------------------------------------------

  // The target name behind its alias.
  function Meant(cfg: Config, target: string): string {
    var requested := Normalize(target);
    if requested in cfg.aliases then cfg.aliases[requested] else requested
  }

  // The first node in the order of the keys that serves the model.
  ghost predicate FirstServing(nodes: map<string, Node>, order: seq<string>, model: string, key: string) {
    exists i :: 0 <= i < |order| && order[i] == key && Serves(nodes, key, model)
      && forall j :: 0 <= j < i ==> !Serves(nodes, order[j], model)
  }

  predicate Serves(nodes: map<string, Node>, key: string, model: string) {
    key in nodes && Normalize(nodes[key].model) == model
  }

  lemma {:induction false} ServingMeaning(nodes: map<string, Node>, order: seq<string>, model: string)
    ensures match Serving(nodes, order, model)
      case Some(key) => FirstServing(nodes, order, model, key)
      case None => forall k :: k in order ==> !Serves(nodes, k, model)
  {
    if order != [] {
      ServingMeaning(nodes, order[1..], model);
      if !Serves(nodes, order[0], model) && Serving(nodes, order[1..], model).Some? {
        var key := Serving(nodes, order[1..], model).value;
        var i :| 0 <= i < |order[1..]| && order[1..][i] == key && Serves(nodes, key, model)
          && forall j :: 0 <= j < i ==> !Serves(nodes, order[1..][j], model);
        assert order[i + 1] == key && forall j :: 0 < j < i + 1 ==> order[j] == order[1..][j - 1];
      }
    }
  }

  // The endpoint is a studio node, with its base URL, host daemon and, if it resolves, model.
  predicate OnStudioNode(cfg: Config, s: State, n: State, key: string) {
    && key in cfg.studioNodes && n.backend == STUDIO && n.studioNode == key && Coherent(n)
    && n.apiBase == StripSlash(cfg.studioNodes[key].apiBase)
    && (if cfg.resolve(cfg.studioNodes[key].model).Some? && cfg.studioNodes[key].model != ""
        then Some(n.activeModel) == cfg.resolve(cfg.studioNodes[key].model)
        else n.activeModel == s.activeModel)
    && n.hostd == (if cfg.studioNodes[key].hostdUrl == "" then None
                   else Some(StripSlash(cfg.studioNodes[key].hostdUrl)))
    && n.llamaNode == s.llamaNode && n.llamaBase == s.llamaBase && n.llamaModel == s.llamaModel
  }

  predicate OnLlamaNode(cfg: Config, s: State, n: State, key: string) {
    && key in cfg.llamaNodes && n.backend == LLAMACPP && n.llamaNode == key && Coherent(n)
    && n.apiBase == StripSlash(cfg.llamaNodes[key].apiBase) && n.llamaModel == cfg.llamaNodes[key].model
    && n.studioNode == s.studioNode && n.studioBase == s.studioBase
    && n.activeModel == s.activeModel && n.hostd == s.hostd
  }

  lemma StudioSelected(cfg: Config, s: State, key: string)
    requires Loaded(cfg) && key in cfg.studioNodes
    ensures OnStudioNode(cfg, s, SelectStudio(cfg, s, key), key)
  {}

  lemma LlamaSelected(cfg: Config, s: State, key: string)
    requires Loaded(cfg) && key in cfg.llamaNodes
    ensures OnLlamaNode(cfg, s, SelectLlama(cfg, s, key), key)
  {}

  // Where a model given by name is used.
  ghost predicate Placed(cfg: Config, s: State, n: State, model: string) {
    || (exists key :: FirstServing(cfg.studioNodes, cfg.studioOrder, model, key) && OnStudioNode(cfg, s, n, key))
    || ((forall k :: k in cfg.studioNodes ==> !Serves(cfg.studioNodes, k, model)) &&
        exists key :: FirstServing(cfg.llamaNodes, cfg.llamaOrder, model, key) && OnLlamaNode(cfg, s, n, key))
    || ((forall k :: k in cfg.studioNodes ==> !Serves(cfg.studioNodes, k, model)) &&
        (forall k :: k in cfg.llamaNodes ==> !Serves(cfg.llamaNodes, k, model)) &&
        n == s.(backend := STUDIO, apiBase := s.studioBase, activeModel := model))
  }

  lemma ModelPlaced(cfg: Config, s: State, model: string)
    requires Loaded(cfg)
    ensures Placed(cfg, s, UseModel(cfg, s, model), model)
  {
    var studio := Serving(cfg.studioNodes, cfg.studioOrder, model);
    var llama := Serving(cfg.llamaNodes, cfg.llamaOrder, model);
    ServingMeaning(cfg.studioNodes, cfg.studioOrder, model);
    ServingMeaning(cfg.llamaNodes, cfg.llamaOrder, model);
    if studio.Some? {
      StudioSelected(cfg, s, studio.value);
    } else if llama.Some? {
      LlamaSelected(cfg, s, llama.value);
    }
  }

  /** What a `use` does: it succeeds exactly when the name behind the alias is a node or resolves to
      a model. A studio node is preferred to a llama.cpp node of the same name, a node to a model of
      the same name, and a model goes to the first studio node that serves it, else the first such
      llama.cpp node, else the studio backend as it is. A failure changes nothing. */
  lemma UseSelects(cfg: Config, s: State, target: string)
    requires Loaded(cfg)
    ensures var (n, ok) := Use(cfg, s, target); var name := Meant(cfg, target);
      && (ok <==> (Normalize(target) != "" &&
            (name in cfg.studioNodes || name in cfg.llamaNodes || cfg.resolve(name).Some?)))
      && (!ok ==> n == s)
      && (ok && name in cfg.studioNodes ==> OnStudioNode(cfg, s, n, name))
      && (ok && name !in cfg.studioNodes && name in cfg.llamaNodes ==> OnLlamaNode(cfg, s, n, name))
      && (ok && name !in cfg.studioNodes && name !in cfg.llamaNodes ==> Placed(cfg, s, n, cfg.resolve(name).value))
  {
    var name := Meant(cfg, target);
    if name in cfg.studioNodes {
      StudioSelected(cfg, s, name);
    } else if name in cfg.llamaNodes {
      LlamaSelected(cfg, s, name);
    } else if cfg.resolve(name).Some? {
      ModelPlaced(cfg, s, cfg.resolve(name).value);
    }
  }

  // ---------------------------------------------------------------------------------------------
  // Fields of the endpoint
  // ---------------------------------------------------------------------------------------------

  datatype Field =
    | TheBackend | TheModel | TheStudioNode | TheStudioBase | TheLlamaNode | TheLlamaBase | TheLlamaModel

  function Entry(meta: Meta, f: Field): Option<string> {
    match f
    case TheBackend => meta.backend
    case TheModel => meta.activeModel
    case TheStudioNode => meta.studioNode
    case TheStudioBase => meta.studioBase
    case TheLlamaNode => meta.llamaNode
    case TheLlamaBase => meta.llamaBase
    case TheLlamaModel => meta.llamaModel
  }

  function InForce(s: State, f: Field): string {
    match f
    case TheBackend => s.backend
    case TheModel => s.activeModel
    case TheStudioNode => s.studioNode
    case TheStudioBase => s.studioBase
    case TheLlamaNode => s.llamaNode
    case TheLlamaBase => s.llamaBase
    case TheLlamaModel => s.llamaModel
  }

  // ---------------------------------------------------------------------------------------------
  // Where a restore ends
  // ---------------------------------------------------------------------------------------------

  // The backend a restore ends with: a node that resolves goes before the backend that was saved.
  function EndBackend(cfg: Config, llama: Option<string>, studio: Option<string>, backend: Option<string>,
                      current: string): string
  {
    if Resolves(cfg.llamaNodes, llama) then LLAMACPP
    else if Resolves(cfg.studioNodes, studio) then STUDIO
    else if backend.Some? && ValidBackend(backend.value) then backend.value
    else current
  }

  lemma StartEnds(cfg: Config, s: State, meta: Meta)
    ensures var n := RestoreBackend(RestoreModel(cfg, s, meta), meta);
      && n.backend == EndBackend(cfg, None, None, meta.backend, s.backend)
      && n.studioNode == s.studioNode && n.llamaNode == s.llamaNode
  {}

  // The node in use after a restore.
  function NodeRestored(nodes: map<string, Node>, entry: Option<string>, current: string): string {
    if entry.None? then current
    else if Normalize(entry.value) == "" then ""
    else if Normalize(entry.value) in nodes then nodes[Normalize(entry.value)].name else current
  }

  lemma StudioEnds(cfg: Config, s: State, meta: Meta)
    ensures var n := RestoreStudio(cfg, s, meta);
      && n.backend == (if Resolves(cfg.studioNodes, meta.studioNode) then STUDIO else s.backend)
      && n.studioNode == NodeRestored(cfg.studioNodes, meta.studioNode, s.studioNode)
      && n.llamaNode == s.llamaNode
  {}

  lemma LlamaEnds(cfg: Config, s: State, meta: Meta)
    ensures var n := RestoreLlama(cfg, s, meta);
      && n.backend == (if Resolves(cfg.llamaNodes, meta.llamaNode) then LLAMACPP else s.backend)
      && n.llamaNode == NodeRestored(cfg.llamaNodes, meta.llamaNode, s.llamaNode)
      && n.studioNode == s.studioNode
      && (Resolves(cfg.llamaNodes, meta.llamaNode) ==>
            n.llamaBase == StripSlash(cfg.llamaNodes[Normalize(meta.llamaNode.value)].apiBase))
  {}

  lemma Realigned(s: State)
    ensures var n := Realign(s);
      && (ValidBackend(n.backend) ==> Coherent(n))
      && n == s.(apiBase := n.apiBase)
  {}

  /** Where a restore ends, from any state: its backend, its nodes, and that it is coherent unless
      the backend was not valid before and none was restored. */
  lemma RestoreEnds(cfg: Config, s: State, meta: Meta)
    ensures var n := Restore(cfg, s, meta);
      && n.backend == EndBackend(cfg, meta.llamaNode, meta.studioNode, meta.backend, s.backend)
      && n.studioNode == NodeRestored(cfg.studioNodes, meta.studioNode, s.studioNode)
      && n.llamaNode == NodeRestored(cfg.llamaNodes, meta.llamaNode, s.llamaNode)
      && (ValidBackend(n.backend) ==> Coherent(n))
      && (Resolves(cfg.llamaNodes, meta.llamaNode) ==>
            n.apiBase == StripSlash(cfg.llamaNodes[Normalize(meta.llamaNode.value)].apiBase))
  {
    var begun := RestoreBackend(RestoreModel(cfg, s, meta), meta);
    var studio := RestoreStudio(cfg, begun, meta);
    StartEnds(cfg, s, meta);
    StudioEnds(cfg, begun, meta);
    LlamaEnds(cfg, studio, meta);
    Realigned(RestoreLlama(cfg, studio, meta));
  }

  // ---------------------------------------------------------------------------------------------
  // The values a resume restores
  // ---------------------------------------------------------------------------------------------

  function BaseRestored(nodes: map<string, Node>, node: Option<string>, base: Option<string>, current: string): string {
    if Resolves(nodes, node) then StripSlash(nodes[Normalize(node.value)].apiBase)
    else if Given(base) then StripSlash(base.value)
    else current
  }

  function ResolvedOr(cfg: Config, name: string, current: string): string {
    if name != "" && cfg.resolve(name).Some? then cfg.resolve(name).value else current
  }

  // The saved model, unless the studio node brings its own.
  function ModelRestored(cfg: Config, s: State, meta: Meta): string {
    var saved :=
      if meta.activeModel.Some? then ResolvedOr(cfg, meta.activeModel.value, s.activeModel) else s.activeModel;
    if Resolves(cfg.studioNodes, meta.studioNode)
    then ResolvedOr(cfg, cfg.studioNodes[Normalize(meta.studioNode.value)].model, saved)
    else saved
  }

  /** What a resume makes of each field, given the state before it and what the file says. */
  function Restored(cfg: Config, s: State, meta: Meta, f: Field): string {
    match f
    case TheBackend => EndBackend(cfg, meta.llamaNode, meta.studioNode, meta.backend, s.backend)
    case TheModel =>
      var model := ModelRestored(cfg, s, meta);
      if model in cfg.exposed || cfg.exposed == [] then model else cfg.exposed[0]
    case TheStudioNode => NodeRestored(cfg.studioNodes, meta.studioNode, s.studioNode)
    case TheStudioBase => BaseRestored(cfg.studioNodes, meta.studioNode, meta.studioBase, s.studioBase)
    case TheLlamaNode => NodeRestored(cfg.llamaNodes, meta.llamaNode, s.llamaNode)
    case TheLlamaBase => BaseRestored(cfg.llamaNodes, meta.llamaNode, meta.llamaBase, s.llamaBase)
    case TheLlamaModel =>
      if Resolves(cfg.llamaNodes, meta.llamaNode) then cfg.llamaNodes[Normalize(meta.llamaNode.value)].model
      else if Given(meta.llamaModel) then meta.llamaModel.value
      else s.llamaModel
  }

  lemma StartValues(cfg: Config, s: State, meta: Meta)
    ensures var n := RestoreBackend(RestoreModel(cfg, s, meta), meta);
      && n.studioBase == s.studioBase && n.llamaBase == s.llamaBase && n.llamaModel == s.llamaModel
      && n.activeModel ==
           if meta.activeModel.Some? then ResolvedOr(cfg, meta.activeModel.value, s.activeModel) else s.activeModel
  {}

  lemma StudioValues(cfg: Config, s: State, meta: Meta)
    ensures var n := RestoreStudio(cfg, s, meta);
      && n.studioBase == BaseRestored(cfg.studioNodes, meta.studioNode, meta.studioBase, s.studioBase)
      && n.llamaBase == s.llamaBase && n.llamaModel == s.llamaModel
      && n.activeModel ==
           if Resolves(cfg.studioNodes, meta.studioNode)
           then ResolvedOr(cfg, cfg.studioNodes[Normalize(meta.studioNode.value)].model, s.activeModel)
           else s.activeModel
  {}

  lemma LlamaValues(cfg: Config, s: State, meta: Meta)
    ensures var n := RestoreLlama(cfg, s, meta);
      && n.studioBase == s.studioBase && n.activeModel == s.activeModel
      && n.llamaBase == BaseRestored(cfg.llamaNodes, meta.llamaNode, meta.llamaBase, s.llamaBase)
      && n.llamaModel == Restored(cfg, s, meta, TheLlamaModel)
  {}

  lemma RestoreValues(cfg: Config, s: State, meta: Meta)
    ensures var n := Restore(cfg, s, meta);
      && n.activeModel == ModelRestored(cfg, s, meta)
      && n.studioBase == Restored(cfg, s, meta, TheStudioBase)
      && n.llamaBase == Restored(cfg, s, meta, TheLlamaBase)
      && n.llamaModel == Restored(cfg, s, meta, TheLlamaModel)
  {
    var begun := RestoreBackend(RestoreModel(cfg, s, meta), meta);
    var studio := RestoreStudio(cfg, begun, meta);
    StartValues(cfg, s, meta);
    StudioValues(cfg, begun, meta);
    LlamaValues(cfg, studio, meta);
    Realigned(RestoreLlama(cfg, studio, meta));
  }

  lemma ResumeRestores(cfg: Config, s: State, meta: Meta, f: Field)
    ensures InForce(Coerced(cfg, Restore(cfg, s, meta)), f) == Restored(cfg, s, meta, f)
  {
    RestoreEnds(cfg, s, meta);
    RestoreValues(cfg, s, meta);
  }

  // ---------------------------------------------------------------------------------------------
  // Coherence
  // ---------------------------------------------------------------------------------------------

  lemma UseCoherent(cfg: Config, s: State, target: string)
    requires Coherent(s)
    ensures Coherent(Use(cfg, s, target).0)
  {}

  lemma StepCoherent(cfg: Config, l: Live, c: Command)
    requires Coherent(l.state)
    ensures Coherent(Execute(cfg, l, c).state)
  {
    match c
    case Resume(file, _) => RestoreEnds(cfg, l.state, Load(file));
    case UseTarget(target) => UseCoherent(cfg, l.state, target);
    case _ =>
  }

  /** The base URL in use is always that of the current backend. */
  lemma {:induction false} AlwaysCoherent(cfg: Config, l: Live, cs: seq<Command>)
    requires Coherent(l.state)
    ensures Coherent(ExecuteAll(cfg, l, cs).state)
  {
    if cs != [] {
      AlwaysCoherent(cfg, l, cs[..|cs| - 1]);
      StepCoherent(cfg, ExecuteAll(cfg, l, cs[..|cs| - 1]), cs[|cs| - 1]);
    }
  }

  // ---------------------------------------------------------------------------------------------
  // What the session file says
  // ---------------------------------------------------------------------------------------------

  function Says(file: seq<Record>, f: Field): Option<string> {
    Entry(Load(file), f)
  }

  /** Which commands write a field down: `/backend` a changed backend, `/model` and `/specialist` the
      model, a node command the fields of its node, and an accepted `/use` all of them, but backend and model only
      if they changed. */
  predicate Notes(cfg: Config, s: State, c: Command, f: Field) {
    match c
    case Backend(name) => f.TheBackend? && ValidBackend(Lowered(name)) && Lowered(name) != s.backend
    case UseTarget(target) =>
      var n := Use(cfg, s, target).0;
      UseReply(cfg, s, target).Applied? &&
        (f.TheBackend? ==> n.backend != s.backend) &&
        (f.TheModel? ==> n.activeModel != s.activeModel && n.activeModel != "")
    case StudioNode(name) => Resolves(cfg.studioNodes, Some(name)) && (f.TheStudioNode? || f.TheStudioBase?)
    case LlamaNode(name) =>
      Resolves(cfg.llamaNodes, Some(name)) && (f.TheLlamaNode? || f.TheLlamaBase? || f.TheLlamaModel?)
    case SelectModel(_) => f.TheModel? && Given(Selected(cfg, s, c))
    case Specialist(_) => f.TheModel? && Given(Selected(cfg, s, c))
    case Resume(_, _) => false
  }

  /** The value a field had when a command last wrote it down, or what the file that was attached
      since, or the one at the start, says of it. */
  function LastNoted(cfg: Config, l: Live, cs: seq<Command>, f: Field): Option<string> {
    if cs == [] then Says(l.file, f) else
      var front, last := cs[..|cs| - 1], cs[|cs| - 1];
      var before := ExecuteAll(cfg, l, front).state;
      if last.Resume? && last.attached then Says(last.file, f)
      else if Notes(cfg, before, last, f) then Some(InForce(ExecuteAll(cfg, l, cs).state, f))
      else LastNoted(cfg, l, front, f)
  }

  lemma LoadAppend(file: seq<Record>, r: Record)
    ensures Load(file + [r]) == LoadRecord(Load(file), r)
  {
    assert (file + [r])[..|file|] == file;
  }

  lemma LoadSwitch(file: seq<Record>, before: State, after: State)
    requires after.backend == before.backend || ValidBackend(after.backend)
    ensures Load(file + SwitchRecords(before, after)) ==
      if before.backend != after.backend then Load(file).(backend := Some(after.backend)) else Load(file)
  {
    if before.backend != after.backend {
      LoadAppend(file, BackendSwitch(after.backend));
    } else {
      assert file + SwitchRecords(before, after) == file;
    }
  }

  lemma LoadModel(file: seq<Record>, before: State, after: State)
    ensures Load(file + ModelRecords(before, after)) ==
      if before.activeModel != after.activeModel && after.activeModel != ""
      then Load(file).(activeModel := Some(after.activeModel)) else Load(file)
  {
    if before.activeModel != after.activeModel {
      LoadAppend(file, ModelSwitch(after.activeModel));
    } else {
      assert file + ModelRecords(before, after) == file;
    }
  }

  lemma LoadUse(file: seq<Record>, before: State, after: State)
    ensures Load(file + UseRecords(before, after)) ==
      Overwrite(Load(file + SwitchRecords(before, after) + ModelRecords(before, after)), EndpointOf(after))
  {
    var f := file + SwitchRecords(before, after) + ModelRecords(before, after);
    assert file + UseRecords(before, after) == f + [Update(EndpointOf(after))];
    LoadAppend(f, Update(EndpointOf(after)));
  }

  lemma UseValid(cfg: Config, s: State, target: string)
    ensures var (n, ok) := Use(cfg, s, target); (n.backend == s.backend || ValidBackend(n.backend)) && (!ok ==> n == s)
  {}

  lemma UseSays(cfg: Config, l: Live, target: string, f: Field)
    requires UseReply(cfg, l.state, target).Applied?
    ensures var n := Execute(cfg, l, UseTarget(target));
      Says(n.file, f) ==
        if Notes(cfg, l.state, UseTarget(target), f) then Some(InForce(n.state, f)) else Says(l.file, f)
  {
    var s, n := l.state, Use(cfg, l.state, target).0;
    UseValid(cfg, s, target);
    LoadUse(l.file, s, n);
    LoadModel(l.file + SwitchRecords(s, n), s, n);
    LoadSwitch(l.file, s, n);
  }

  lemma BackendSays(cfg: Config, l: Live, name: string, f: Field)
    ensures var n := Execute(cfg, l, Backend(name));
      Says(n.file, f) ==
        if Notes(cfg, l.state, Backend(name), f) then Some(InForce(n.state, f)) else Says(l.file, f)
  {
    if ValidBackend(Lowered(name)) {
      var n := WithBackend(l.state, Lowered(name));
      LoadAppend(l.file + SwitchRecords(l.state, n), Update(NOTHING));
      LoadSwitch(l.file, l.state, n);
    }
  }

  lemma NodeSays(cfg: Config, l: Live, c: Command, f: Field)
    requires c.StudioNode? || c.LlamaNode?
    ensures var n := Execute(cfg, l, c);
      Says(n.file, f) == if Notes(cfg, l.state, c, f) then Some(InForce(n.state, f)) else Says(l.file, f)
  {
    var n := Execute(cfg, l, c);
    if n.file != l.file {
      LoadAppend(l.file, n.file[|l.file|]);
    }
  }

  lemma SelectSays(l: Live, model: Option<string>, f: Field)
    ensures var n := Select(l, model);
      Says(n.file, f) == if f.TheModel? && Given(model) then Some(InForce(n.state, f)) else Says(l.file, f)
  {
    if model.Some? {
      LoadAppend(l.file, ModelSwitch(model.value));
      LoadAppend(l.file + [ModelSwitch(model.value)], Update(NOTHING));
    }
  }

  lemma StepSays(cfg: Config, l: Live, c: Command, f: Field)
    ensures var n := Execute(cfg, l, c);
      Says(n.file, f) ==
        if c.Resume? && c.attached then Says(c.file, f)
        else if Notes(cfg, l.state, c, f) then Some(InForce(n.state, f))
        else Says(l.file, f)
  {
    match c
    case Backend(name) => BackendSays(cfg, l, name, f);
    case UseTarget(target) =>
      if UseReply(cfg, l.state, target).Applied? {
        UseSays(cfg, l, target, f);
      }
    case StudioNode(_) => NodeSays(cfg, l, c, f);
    case LlamaNode(_) => NodeSays(cfg, l, c, f);
    case SelectModel(_) => SelectSays(l, Selected(cfg, l.state, c), f);
    case Specialist(_) => SelectSays(l, Selected(cfg, l.state, c), f);
    case Resume(_, _) =>
  }

  /** What a session file says after any commands, refused ones and resumes included: each field as
      it was when last written down. */
  lemma {:induction false} FileDescribes(cfg: Config, l: Live, cs: seq<Command>, f: Field)
    ensures Says(ExecuteAll(cfg, l, cs).file, f) == LastNoted(cfg, l, cs, f)
  {
    if cs != [] {
      FileDescribes(cfg, l, cs[..|cs| - 1], f);
      StepSays(cfg, ExecuteAll(cfg, l, cs[..|cs| - 1]), cs[|cs| - 1], f);
    }
  }

  // ---------------------------------------------------------------------------------------------
  // When the file is up to date
  // ---------------------------------------------------------------------------------------------

  predicate UpToDate(l: Live, f: Field) {
    Says(l.file, f) == Some(InForce(l.state, f))
  }

  /** Where a `/use` is refused although it has been applied. */
  predicate RefusedUse(cfg: Config, s: State, c: Command) {
    c.UseTarget? && UseReply(cfg, s, c.target).Raised?
  }

  /** The commands that change a field without writing it down: a refused `/use`; the selection of a
      node, which writes down neither the backend it switches to nor the model of a studio node; a
      resume that failed and changed it, or that made of it what the file does not say (which
      `ResumeMissesIff` spells out); and, as an empty name is not loaded, the selection of a model
      without a name. */
  predicate Misses(cfg: Config, s: State, c: Command, f: Field) {
    match c
    case Backend(_) => false
    case UseTarget(target) =>
      var n := Use(cfg, s, target).0;
      InForce(n, f) != InForce(s, f) && (RefusedUse(cfg, s, c) || (f.TheModel? && n.activeModel == ""))
    case StudioNode(name) =>
      Resolves(cfg.studioNodes, Some(name)) &&
      var model := cfg.studioNodes[Normalize(name)].model;
      || (f.TheBackend? && s.backend != STUDIO)
      || (f.TheModel? && model != "" && cfg.resolve(model).Some? && cfg.resolve(model).value != s.activeModel)
    case LlamaNode(name) => Resolves(cfg.llamaNodes, Some(name)) && f.TheBackend? && s.backend != LLAMACPP
    case SelectModel(_) => f.TheModel? && Selected(cfg, s, c) == Some("") && s.activeModel != ""
    case Specialist(_) => f.TheModel? && Selected(cfg, s, c) == Some("") && s.activeModel != ""
    case Resume(file, attached) =>
      var restored := Restored(cfg, s, Load(file), f);
      if attached then Says(file, f) != Some(restored) else restored != InForce(s, f)
  }

  lemma StepUpToDate(cfg: Config, l: Live, c: Command, f: Field)
    requires UpToDate(l, f)
    ensures UpToDate(Execute(cfg, l, c), f) <==> !Misses(cfg, l.state, c, f)
  {
    StepSays(cfg, l, c, f);
    if c.UseTarget? {
      UseValid(cfg, l.state, c.target);
    } else if c.Resume? {
      ResumeRestores(cfg, l.state, Load(c.file), f);
    }
  }

  // The session after its first k commands.
  function After(cfg: Config, s: State, cs: seq<Command>, k: nat): Live
    requires k <= |cs|
  {
    ExecuteAll(cfg, Begin(s), cs[..k])
  }

  lemma AfterNext(cfg: Config, s: State, cs: seq<Command>, k: nat)
    requires k < |cs|
    ensures After(cfg, s, cs, k + 1) == Execute(cfg, After(cfg, s, cs, k), cs[k])
  {
    assert cs[..k + 1][..k] == cs[..k];
  }

  lemma BeginUpToDate(s: State, f: Field)
    ensures UpToDate(Begin(s), f)
  {
    assert [Started(Saved(s))][..0] == [];
  }

  lemma {:induction false} NeverMissed(cfg: Config, s: State, cs: seq<Command>, f: Field, k: nat)
    requires k <= |cs|
    requires forall i :: 0 <= i < k ==> !Misses(cfg, After(cfg, s, cs, i).state, cs[i], f)
    ensures UpToDate(After(cfg, s, cs, k), f)
  {
    if k == 0 {
      BeginUpToDate(s, f);
    } else {
      NeverMissed(cfg, s, cs, f, k - 1);
      AfterNext(cfg, s, cs, k - 1);
      StepUpToDate(cfg, After(cfg, s, cs, k - 1), cs[k - 1], f);
    }
  }

  /** The file gives the value in force of a field at every moment of a session exactly if no command
      misses it. */
  lemma UpToDateIff(cfg: Config, s: State, cs: seq<Command>, f: Field)
    ensures (forall k :: 0 <= k <= |cs| ==> UpToDate(After(cfg, s, cs, k), f)) <==>
      forall k :: 0 <= k < |cs| ==> !Misses(cfg, After(cfg, s, cs, k).state, cs[k], f)
  {
    if forall k :: 0 <= k <= |cs| ==> UpToDate(After(cfg, s, cs, k), f) {
      forall k | 0 <= k < |cs| ensures !Misses(cfg, After(cfg, s, cs, k).state, cs[k], f) {
        AfterNext(cfg, s, cs, k);
        assert UpToDate(After(cfg, s, cs, k), f) && UpToDate(After(cfg, s, cs, k + 1), f);
        StepUpToDate(cfg, After(cfg, s, cs, k), cs[k], f);
      }
    }
    if forall k :: 0 <= k < |cs| ==> !Misses(cfg, After(cfg, s, cs, k).state, cs[k], f) {
      forall k | 0 <= k <= |cs| ensures UpToDate(After(cfg, s, cs, k), f) {
        NeverMissed(cfg, s, cs, f, k);
      }
    }
  }

  /** In particular the nodes and their base URLs are those in use as long as no session is resumed
      and no `/use` refused. */
  lemma NodesDescribed(cfg: Config, s: State, cs: seq<Command>, f: Field)
    requires !f.TheBackend? && !f.TheModel? && Unresumed(cs) && Unrefused(cfg, s, cs)
    ensures UpToDate(ExecuteAll(cfg, Begin(s), cs), f)
  {
    forall k | 0 <= k < |cs| ensures !Misses(cfg, After(cfg, s, cs, k).state, cs[k], f) {
      assert !cs[k].Resume?;
    }
    NeverMissed(cfg, s, cs, f, |cs|);
    assert cs[..|cs|] == cs;
  }

  predicate Unresumed(cs: seq<Command>) {
    forall i :: 0 <= i < |cs| ==> !cs[i].Resume?
  }

  predicate Unrefused(cfg: Config, s: State, cs: seq<Command>) {
    forall k :: 0 <= k < |cs| ==> !RefusedUse(cfg, After(cfg, s, cs, k).state, cs[k])
  }

  // The entry is absent, or names a node in another form, or names none and is not in use already.
  predicate NodeLeft(nodes: map<string, Node>, entry: Option<string>, current: string) {
    || entry.None?
    || (Normalize(entry.value) in nodes && entry.value != Normalize(entry.value))
    || (Normalize(entry.value) == "" && entry.value != "")
    || (Normalize(entry.value) != "" && Normalize(entry.value) !in nodes && entry.value != current)
  }

  // The entry is absent, or not the base URL of a node that resolves, or, if none does, ends in a
  // slash or is empty while some base URL is in use.
  predicate BaseLeft(nodes: map<string, Node>, node: Option<string>, entry: Option<string>, current: string) {
    || entry.None?
    || (if Resolves(nodes, node) then entry.value != StripSlash(nodes[Normalize(node.value)].apiBase)
        else if entry.value == "" then current != ""
        else entry.value[|entry.value| - 1] == '/')
  }

  // The entry is not that of the node that decides, or, if none does, not a backend in use already.
  predicate BackendLeft(cfg: Config, meta: Meta, current: string) {
    if Resolves(cfg.llamaNodes, meta.llamaNode) then meta.backend != Some(LLAMACPP)
    else if Resolves(cfg.studioNodes, meta.studioNode) then meta.backend != Some(STUDIO)
    else meta.backend.None? || (!ValidBackend(meta.backend.value) && meta.backend.value != current)
  }

  // The entry is not that of a llama.cpp node that resolves, or, if none does, empty or absent.
  predicate LlamaModelLeft(cfg: Config, meta: Meta, current: string) {
    || meta.llamaModel.None?
    || (if Resolves(cfg.llamaNodes, meta.llamaNode)
        then meta.llamaModel.value != cfg.llamaNodes[Normalize(meta.llamaNode.value)].model
        else meta.llamaModel.value == "" && current != "")
  }

  /** What a resume leaves other than its file says, read off the file, the registry and the state
      before. */
  predicate LeftBehind(cfg: Config, s: State, meta: Meta, f: Field) {
    match f
    case TheBackend => BackendLeft(cfg, meta, s.backend)
    case TheModel => meta.activeModel != Some(Restored(cfg, s, meta, TheModel))
    case TheStudioNode => NodeLeft(cfg.studioNodes, meta.studioNode, s.studioNode)
    case TheStudioBase => BaseLeft(cfg.studioNodes, meta.studioNode, meta.studioBase, s.studioBase)
    case TheLlamaNode => NodeLeft(cfg.llamaNodes, meta.llamaNode, s.llamaNode)
    case TheLlamaBase => BaseLeft(cfg.llamaNodes, meta.llamaNode, meta.llamaBase, s.llamaBase)
    case TheLlamaModel => LlamaModelLeft(cfg, meta, s.llamaModel)
  }

  /** Which fields of a file a resume misses. */
  lemma ResumeMissesIff(cfg: Config, s: State, file: seq<Record>, f: Field)
    requires Loaded(cfg)
    ensures Misses(cfg, s, Resume(file, true), f) <==> LeftBehind(cfg, s, Load(file), f)
  {
    var meta := Load(file);
    match f
    case TheStudioNode => NodeLeftIff(cfg.studioNodes, cfg.studioOrder, meta.studioNode, s.studioNode);
    case TheLlamaNode => NodeLeftIff(cfg.llamaNodes, cfg.llamaOrder, meta.llamaNode, s.llamaNode);
    case TheStudioBase => BaseLeftIff(cfg.studioNodes, meta.studioNode, meta.studioBase, s.studioBase);
    case TheLlamaBase => BaseLeftIff(cfg.llamaNodes, meta.llamaNode, meta.llamaBase, s.llamaBase);
    case TheBackend => BackendLeftIff(cfg, meta, s.backend);
    case _ =>
  }

  lemma NodeLeftIff(nodes: map<string, Node>, order: seq<string>, entry: Option<string>, current: string)
    requires LoadedNodes(nodes, order)
    ensures entry != Some(NodeRestored(nodes, entry, current)) <==> NodeLeft(nodes, entry, current)
  {}

  lemma BaseLeftIff(nodes: map<string, Node>, node: Option<string>, entry: Option<string>, current: string)
    ensures entry != Some(BaseRestored(nodes, node, entry, current)) <==> BaseLeft(nodes, node, entry, current)
  {
    if Given(entry) {
      SlashStripped(entry.value);
    }
  }

  lemma {:induction false} SlashStripped(url: string)
    requires url != ""
    ensures StripSlash(url) <= url && (StripSlash(url) != url <==> url[|url| - 1] == '/')
    ensures StripSlash(url) != "" ==> StripSlash(url)[|StripSlash(url)| - 1] != '/'
    ensures forall i :: |StripSlash(url)| <= i < |url| ==> url[i] == '/'
  {
    if url[|url| - 1] == '/' && |url| > 1 {
      SlashStripped(url[..|url| - 1]);
    }
  }

  lemma BackendLeftIff(cfg: Config, meta: Meta, current: string)
    ensures meta.backend != Some(EndBackend(cfg, meta.llamaNode, meta.studioNode, meta.backend, current))
      <==> BackendLeft(cfg, meta, current)
  {}

  // ---------------------------------------------------------------------------------------------
  // Where a resume leads
  // ---------------------------------------------------------------------------------------------

  /** Resuming the file, in any process and with any registry, after any commands, returns to the
      backend in use exactly under this condition: the llama.cpp node last written down pulls the
      resume to llama.cpp if it still resolves, else the studio node last written down to studio,
      else it is the backend last written down, which need not be the one in use. */
  lemma SaveResumeIff(cfg: Config, l: Live, cs: seq<Command>, cfg': Config, s': State)
    ensures var n := ExecuteAll(cfg, l, cs);
      var noted := LastNoted(cfg, l, cs, TheBackend);
      Restore(cfg', s', Load(n.file)).backend == n.state.backend <==>
        if Resolves(cfg'.llamaNodes, LastNoted(cfg, l, cs, TheLlamaNode)) then n.state.backend == LLAMACPP
        else if Resolves(cfg'.studioNodes, LastNoted(cfg, l, cs, TheStudioNode)) then n.state.backend == STUDIO
        else if noted.Some? && ValidBackend(noted.value) then n.state.backend == noted.value
        else n.state.backend == s'.backend
  {
    FileDescribes(cfg, l, cs, TheBackend);
    FileDescribes(cfg, l, cs, TheStudioNode);
    FileDescribes(cfg, l, cs, TheLlamaNode);
    BackendRestored(cfg', s', Load(ExecuteAll(cfg, l, cs).file));
  }

  // The nodes a state names are in the registry.
  predicate Known(cfg: Config, s: State) {
    && (s.studioNode == "" || s.studioNode in cfg.studioNodes)
    && (s.llamaNode == "" || s.llamaNode in cfg.llamaNodes)
  }

  // Nodes stay known, and are never forgotten; a llama.cpp node is selected only by going there.
  predicate KeepsNodes(cfg: Config, s: State, n: State) {
    && Known(cfg, n) && (s.studioNode != "" ==> n.studioNode != "") && (s.llamaNode != "" ==> n.llamaNode != "")
    && (n.llamaNode != s.llamaNode ==> n.backend == LLAMACPP)
  }

  lemma StudioKnown(cfg: Config, s: State, n: State, key: string)
    requires Loaded(cfg) && Known(cfg, s) && OnStudioNode(cfg, s, n, key)
    ensures KeepsNodes(cfg, s, n) && n.backend == STUDIO && n.studioNode != ""
  {}

  lemma LlamaKnown(cfg: Config, s: State, n: State, key: string)
    requires Loaded(cfg) && Known(cfg, s) && OnLlamaNode(cfg, s, n, key)
    ensures KeepsNodes(cfg, s, n) && n.backend == LLAMACPP && n.llamaNode != ""
  {}

  lemma PlacedKnown(cfg: Config, s: State, n: State, model: string)
    requires Loaded(cfg) && Known(cfg, s) && Placed(cfg, s, n, model)
    ensures KeepsNodes(cfg, s, n) && (n.backend == LLAMACPP ==> n.llamaNode != "")
  {
    if key :| FirstServing(cfg.studioNodes, cfg.studioOrder, model, key) && OnStudioNode(cfg, s, n, key) {
      StudioKnown(cfg, s, n, key);
    } else if key :| FirstServing(cfg.llamaNodes, cfg.llamaOrder, model, key) && OnLlamaNode(cfg, s, n, key) {
      LlamaKnown(cfg, s, n, key);
    }
  }

  lemma UseKnown(cfg: Config, s: State, target: string)
    requires Loaded(cfg) && Known(cfg, s)
    ensures var (n, ok) := Use(cfg, s, target);
      KeepsNodes(cfg, s, n) && (ok && n.backend == LLAMACPP ==> n.llamaNode != "") && (!ok ==> n == s)
  {
    var (n, ok) := Use(cfg, s, target);
    var name := Meant(cfg, target);
    UseSelects(cfg, s, target);
    if ok && name in cfg.studioNodes {
      StudioKnown(cfg, s, n, name);
    } else if ok && name in cfg.llamaNodes {
      LlamaKnown(cfg, s, n, name);
    } else if ok {
      PlacedKnown(cfg, s, n, cfg.resolve(name).value);
    }
  }

  lemma SelectKnown(cfg: Config, s: State, name: string)
    requires Loaded(cfg) && Known(cfg, s)
    ensures var n := SelectStudio(cfg, s, name);
      KeepsNodes(cfg, s, n) && (n.backend == LLAMACPP ==> n.backend == s.backend)
    ensures var n := SelectLlama(cfg, s, name);
      KeepsNodes(cfg, s, n) && (n.backend != s.backend ==> n.llamaNode != "")
  {
    if Resolves(cfg.studioNodes, Some(name)) {
      StudioSelected(cfg, s, Normalize(name));
      StudioKnown(cfg, s, SelectStudio(cfg, s, name), Normalize(name));
    }
    if Resolves(cfg.llamaNodes, Some(name)) {
      LlamaSelected(cfg, s, Normalize(name));
      LlamaKnown(cfg, s, SelectLlama(cfg, s, name), Normalize(name));
    }
  }

  lemma NodeKnown(cfg: Config, l: Live, c: Command)
    requires Loaded(cfg) && Known(cfg, l.state) && (c.StudioNode? || c.LlamaNode?)
    ensures var s, n := l.state, Execute(cfg, l, c).state;
      KeepsNodes(cfg, s, n) && (n.backend != s.backend && n.backend == LLAMACPP ==> n.llamaNode != "")
  {
    SelectKnown(cfg, l.state, c.name);
  }

  lemma StepKnown(cfg: Config, l: Live, c: Command)
    requires Loaded(cfg) && Known(cfg, l.state) && !c.Resume?
    ensures var s, n := l.state, Execute(cfg, l, c).state;
      && KeepsNodes(cfg, s, n)
      && (n.backend != s.backend && n.backend == LLAMACPP && !c.Backend? ==> n.llamaNode != "")
  {
    if c.UseTarget? {
      UseKnown(cfg, l.state, c.target);
    } else if c.StudioNode? || c.LlamaNode? {
      NodeKnown(cfg, l, c);
    }
  }

  // A session that was never resumed, next to its file.
  predicate Tracked(cfg: Config, l: Live) {
    var backend, studio := Says(l.file, TheBackend), Says(l.file, TheStudioNode);
    && Coherent(l.state) && Known(cfg, l.state)
    && backend.Some? && ValidBackend(backend.value)
    && studio.Some? && (studio.value == "" || studio.value in cfg.studioNodes)
    && UpToDate(l, TheLlamaNode)
    && (l.state.backend == LLAMACPP && l.state.llamaNode == "" ==> backend == Some(LLAMACPP))
  }

  lemma StudioTracked(cfg: Config, l: Live, c: Command)
    requires Loaded(cfg) && Tracked(cfg, l) && !c.Resume?
    ensures var studio := Says(Execute(cfg, l, c).file, TheStudioNode);
      studio.Some? && (studio.value == "" || studio.value in cfg.studioNodes)
  {
    StepKnown(cfg, l, c);
    StepSays(cfg, l, c, TheStudioNode);
  }

  lemma LlamaTracked(cfg: Config, l: Live, c: Command)
    requires Loaded(cfg) && Tracked(cfg, l) && !c.Resume?
    ensures UpToDate(Execute(cfg, l, c), TheLlamaNode)
  {
    StepKnown(cfg, l, c);
    StepUpToDate(cfg, l, c, TheLlamaNode);
  }

  lemma BackendTracked(cfg: Config, l: Live, c: Command)
    requires Loaded(cfg) && Tracked(cfg, l) && !c.Resume?
    ensures var n := Execute(cfg, l, c); var backend := Says(n.file, TheBackend);
      && backend.Some? && ValidBackend(backend.value)
      && (n.state.backend == LLAMACPP && n.state.llamaNode == "" ==> backend == Some(LLAMACPP))
  {
    StepCoherent(cfg, l, c);
    StepKnown(cfg, l, c);
    StepSays(cfg, l, c, TheBackend);
  }

  lemma StepTracked(cfg: Config, l: Live, c: Command)
    requires Loaded(cfg) && Tracked(cfg, l) && !c.Resume?
    ensures Tracked(cfg, Execute(cfg, l, c))
  {
    StepCoherent(cfg, l, c);
    StepKnown(cfg, l, c);
    StudioTracked(cfg, l, c);
    LlamaTracked(cfg, l, c);
    BackendTracked(cfg, l, c);
  }

  lemma {:induction false} StaysTracked(cfg: Config, s: State, cs: seq<Command>)
    requires Loaded(cfg) && Coherent(s) && Known(cfg, s) && Unresumed(cs)
    ensures Tracked(cfg, ExecuteAll(cfg, Begin(s), cs))
  {
    if cs == [] {
      forall f | f == TheBackend || f == TheStudioNode || f == TheLlamaNode ensures UpToDate(Begin(s), f) {
        BeginUpToDate(s, f);
      }
    } else {
      StaysTracked(cfg, s, cs[..|cs| - 1]);
      StepTracked(cfg, ExecuteAll(cfg, Begin(s), cs[..|cs| - 1]), cs[|cs| - 1]);
    }
  }

  // A name in the registry, or none, resolves exactly if there is one.
  lemma KnownResolves(nodes: map<string, Node>, order: seq<string>, name: string)
    requires LoadedNodes(nodes, order) && (name == "" || name in nodes)
    ensures Resolves(nodes, Some(name)) <==> name != ""
  {
    assert Normalize("") == "";
  }

  /** With the registry unchanged, and unless a session was resumed into this one, it comes down to
      the nodes: a session on llama.cpp is resumed there exactly if it selected a node of it or wrote
      down no studio node, and one on studio exactly if it never selected a llama.cpp node and wrote
      down a studio node or the backend. */
  lemma SameRegistryIff(cfg: Config, s: State, cs: seq<Command>, s': State)
    requires Loaded(cfg) && Coherent(s) && Known(cfg, s) && Unresumed(cs)
    ensures var n := ExecuteAll(cfg, Begin(s), cs);
      var studio := LastNoted(cfg, Begin(s), cs, TheStudioNode);
      Restore(cfg, s', Load(n.file)).backend == n.state.backend <==>
        if n.state.backend == LLAMACPP then n.state.llamaNode != "" || studio == Some("") else
          n.state.llamaNode == "" &&
          (studio != Some("") || LastNoted(cfg, Begin(s), cs, TheBackend) == Some(STUDIO))
  {
    StaysTracked(cfg, s, cs);
    FileDescribes(cfg, Begin(s), cs, TheBackend);
    FileDescribes(cfg, Begin(s), cs, TheStudioNode);
    TrackedResume(cfg, ExecuteAll(cfg, Begin(s), cs), s');
  }

  lemma EndOf(cfg: Config, llama: Option<string>, studio: Option<string>, backend: Option<string>, current: string)
    requires backend.Some? && ValidBackend(backend.value)
    requires Resolves(cfg.llamaNodes, llama) <==> llama != Some("")
    requires Resolves(cfg.studioNodes, studio) <==> studio != Some("")
    ensures EndBackend(cfg, llama, studio, backend, current) ==
      if llama != Some("") then LLAMACPP else if studio != Some("") then STUDIO else backend.value
  {}

  lemma TrackedNodes(cfg: Config, l: Live)
    requires Loaded(cfg) && Tracked(cfg, l)
    ensures Resolves(cfg.llamaNodes, Says(l.file, TheLlamaNode)) <==> Says(l.file, TheLlamaNode) != Some("")
    ensures Resolves(cfg.studioNodes, Says(l.file, TheStudioNode)) <==> Says(l.file, TheStudioNode) != Some("")
  {
    KnownResolves(cfg.llamaNodes, cfg.llamaOrder, l.state.llamaNode);
    KnownResolves(cfg.studioNodes, cfg.studioOrder, Says(l.file, TheStudioNode).value);
  }

  lemma BackendRestored(cfg: Config, s: State, meta: Meta)
    ensures Restore(cfg, s, meta).backend ==
      EndBackend(cfg, meta.llamaNode, meta.studioNode, meta.backend, s.backend)
  {
    RestoreEnds(cfg, s, meta);
  }

  lemma TrackedResume(cfg: Config, l: Live, s': State)
    requires Loaded(cfg) && Tracked(cfg, l)
    ensures Restore(cfg, s', Load(l.file)).backend ==
      if l.state.llamaNode != "" then LLAMACPP
      else if Says(l.file, TheStudioNode) != Some("") then STUDIO
      else Says(l.file, TheBackend).value
  {
    var meta := Load(l.file);
    BackendRestored(cfg, s', meta);
    TrackedNodes(cfg, l);
    EndOf(cfg, meta.llamaNode, meta.studioNode, meta.backend, s'.backend);
  }

  // Studio without a node was written down.
  predicate StudioNoted(l: Live) {
    l.state.backend == STUDIO && l.state.studioNode == "" ==> Says(l.file, TheBackend) == Some(STUDIO)
  }

  lemma StepStudioNoted(cfg: Config, l: Live, c: Command)
    requires Loaded(cfg) && Known(cfg, l.state) && StudioNoted(l)
    requires !c.Resume? && !RefusedUse(cfg, l.state, c)
    ensures StudioNoted(Execute(cfg, l, c))
  {
    StepKnown(cfg, l, c);
    StepSays(cfg, l, c, TheBackend);
    if c.UseTarget? {
      UseValid(cfg, l.state, c.target);
    }
  }

  lemma {:induction false} StaysStudioNoted(cfg: Config, s: State, cs: seq<Command>, k: nat)
    requires Loaded(cfg) && Coherent(s) && Known(cfg, s) && Unresumed(cs) && Unrefused(cfg, s, cs) && k <= |cs|
    ensures StudioNoted(After(cfg, s, cs, k))
  {
    if k == 0 {
      BeginUpToDate(s, TheBackend);
    } else {
      StaysStudioNoted(cfg, s, cs, k - 1);
      StaysTracked(cfg, s, cs[..k - 1]);
      AfterNext(cfg, s, cs, k - 1);
      assert !cs[k - 1].Resume?;
      StepStudioNoted(cfg, After(cfg, s, cs, k - 1), cs[k - 1]);
    }
  }

  /** If no `/use` was refused either, the nodes in use alone decide: a session on studio is resumed
      there exactly if it never selected a llama.cpp node, and one on llama.cpp if it selected a node
      of it or none at all. */
  lemma UnrefusedIff(cfg: Config, s: State, cs: seq<Command>, s': State)
    requires Loaded(cfg) && Coherent(s) && Known(cfg, s) && Unresumed(cs) && Unrefused(cfg, s, cs)
    ensures var n := ExecuteAll(cfg, Begin(s), cs);
      Restore(cfg, s', Load(n.file)).backend == n.state.backend <==>
        if n.state.backend == LLAMACPP then n.state.llamaNode != "" || n.state.studioNode == ""
        else n.state.llamaNode == ""
  {
    SameRegistryIff(cfg, s, cs, s');
    FileDescribes(cfg, Begin(s), cs, TheBackend);
    FileDescribes(cfg, Begin(s), cs, TheStudioNode);
    NodesDescribed(cfg, s, cs, TheStudioNode);
    StaysStudioNoted(cfg, s, cs, |cs|);
    assert cs[..|cs|] == cs;
    StaysTracked(cfg, s, cs);
  }

  lemma OneCommand(cfg: Config, l: Live, c: Command)
    ensures ExecuteAll(cfg, l, [c]) == Execute(cfg, l, c)
  {
    assert [c][..0] == [];
    assert ExecuteAll(cfg, l, [c][..0]) == l;
  }

  lemma TwoCommands(cfg: Config, l: Live, c: Command, d: Command)
    ensures ExecuteAll(cfg, l, [c, d]) == Execute(cfg, Execute(cfg, l, c), d)
  {
    assert [c, d][..1] == [c];
    OneCommand(cfg, l, c);
  }

  /** A session on llama.cpp without nodes uses a spawn-only model that no node serves, as
      oracle-coder: the command fails and the session is on studio with that model, while its file
      says llama.cpp as before, and that is where every resume leads. */
  lemma RefusedUseIsForgotten(cfg: Config, s: State, target: string, model: string, cfg': Config, s': State)
    requires Coherent(s) && s.backend == LLAMACPP && s.studioNode == s.llamaNode == ""
    requires Normalize(target) != "" && cfg.resolve(Meant(cfg, target)) == Some(model) && !cfg.available(model)
    requires Meant(cfg, target) !in cfg.studioNodes && Meant(cfg, target) !in cfg.llamaNodes
    requires forall k :: k in cfg.studioNodes ==> !Serves(cfg.studioNodes, k, model)
    requires forall k :: k in cfg.llamaNodes ==> !Serves(cfg.llamaNodes, k, model)
    ensures var l := ExecuteAll(cfg, Begin(s), [UseTarget(target)]);
      && UseReply(cfg, s, target) == Raised
      && l.state.backend == STUDIO && l.state.activeModel == model && l.file == Begin(s).file
      && Restore(cfg', s', Load(l.file)).backend == LLAMACPP
  {
    OneCommand(cfg, Begin(s), UseTarget(target));
    NoneServing(cfg.studioNodes, cfg.studioOrder, model);
    NoneServing(cfg.llamaNodes, cfg.llamaOrder, model);
    BeginUpToDate(s, TheBackend);
    BeginUpToDate(s, TheStudioNode);
    BeginUpToDate(s, TheLlamaNode);
    BackendRestored(cfg', s', Load(Begin(s).file));
    assert Normalize("") == "";
  }

  lemma {:induction false} NoneServing(nodes: map<string, Node>, order: seq<string>, model: string)
    requires forall k :: k in nodes ==> !Serves(nodes, k, model)
    ensures Serving(nodes, order, model).None?
  {
    ServingMeaning(nodes, order, model);
  }

  /** Picking a llama.cpp node and switching back to studio: a resume undoes the switch. */
  lemma SwitchBackIsForgotten(cfg: Config, s: State, name: string, s': State)
    requires Loaded(cfg) && Coherent(s) && Known(cfg, s) && Resolves(cfg.llamaNodes, Some(name))
    ensures var l := ExecuteAll(cfg, Begin(s), [LlamaNode(name), Backend(STUDIO)]);
      l.state.backend == STUDIO && Restore(cfg, s', Load(l.file)).backend == LLAMACPP
  {
    var cs := [LlamaNode(name), Backend(STUDIO)];
    var l := ExecuteAll(cfg, Begin(s), cs);
    SwitchBack(cfg, s, name);
    StaysTracked(cfg, s, cs);
    TrackedResume(cfg, l, s');
  }

  lemma SwitchBack(cfg: Config, s: State, name: string)
    requires Loaded(cfg) && Resolves(cfg.llamaNodes, Some(name))
    ensures var n := ExecuteAll(cfg, Begin(s), [LlamaNode(name), Backend(STUDIO)]).state;
      n.backend == STUDIO && n.llamaNode == Normalize(name) != ""
  {
    var picked := Execute(cfg, Begin(s), LlamaNode(name));
    TwoCommands(cfg, Begin(s), LlamaNode(name), Backend(STUDIO));
    PicksNode(cfg, s, name);
    SwitchesBack(cfg, picked);
  }

  lemma PicksNode(cfg: Config, s: State, name: string)
    requires Loaded(cfg) && Resolves(cfg.llamaNodes, Some(name))
    ensures Execute(cfg, Begin(s), LlamaNode(name)).state.llamaNode == Normalize(name)
  {}

  lemma SwitchesBack(cfg: Config, l: Live)
    ensures Execute(cfg, l, Backend(STUDIO)).state == WithBackend(l.state, STUDIO)
  {
    assert Lowered(STUDIO) == STUDIO;
  }

  /** Picking a llama.cpp node is not recorded as a switch: once the node is gone from the registry,
      a session started on studio resumes there. */
  lemma NodeGoneIsForgotten(cfg: Config, s: State, name: string, cfg': Config, s': State)
    requires Coherent(s) && s.backend == STUDIO && Resolves(cfg.llamaNodes, Some(name))
    requires !Resolves(cfg'.llamaNodes, Some(cfg.llamaNodes[Normalize(name)].name))
    ensures var l := ExecuteAll(cfg, Begin(s), [LlamaNode(name)]);
      l.state.backend == LLAMACPP && Restore(cfg', s', Load(l.file)).backend == STUDIO
  {
    OneCommand(cfg, Begin(s), LlamaNode(name));
    BeginUpToDate(s, TheBackend);
    StepSays(cfg, Begin(s), LlamaNode(name), TheBackend);
    StepSays(cfg, Begin(s), LlamaNode(name), TheLlamaNode);
    BackendRestored(cfg', s', Load(ExecuteAll(cfg, Begin(s), [LlamaNode(name)]).file));
  }
}
