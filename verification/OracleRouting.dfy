/**
 Routing of a prompt to models: profile matching as a lexicographic minimum, the oracle route
 with its fallbacks, and the targets and decisions of every mode.
 */
module OracleRouting {
  import opened Basics
  import opened Text

  datatype Model = Model(
    name: string, domain: string, mode: string, effort: string, thinkingTier: string, blockReason: string)

  type Registry = map<string, Model>

  // ---------------------------------------------------------------------------------------------
  // Text
  // ---------------------------------------------------------------------------------------------

  predicate Blocked(m: Model) {
    Trim(m.blockReason) != ""
  }

  /** A reason of white space alone does not block. */
  lemma BlockedIff(m: Model)
    ensures Blocked(m) <==> exists c :: c in m.blockReason && !IsSpace(c)
  {
    var text := m.blockReason;
    var i, j := TrimExact(text);
    if i < j {
      assert text[i] in text;
    }
  }

  // The order of strings: by the first difference, a proper prefix first.
  predicate StringLess(a: string, b: string) {
    b != "" && (a == "" || a[0] < b[0] || (a[0] == b[0] && StringLess(a[1..], b[1..])))
  }

  lemma {:induction false} StringTrichotomy(a: string, b: string)
    ensures a == b || StringLess(a, b) || StringLess(b, a)
    ensures !(StringLess(a, b) && StringLess(b, a)) && (a == b ==> !StringLess(a, b))
  {
    if a != "" && b != "" {
      StringTrichotomy(a[1..], b[1..]);
      assert a == [a[0]] + a[1..] && b == [b[0]] + b[1..];
    }
  }

  lemma {:induction false} StringTransitive(a: string, b: string, c: string)
    requires StringLess(a, b) && StringLess(b, c)
    ensures StringLess(a, c)
  {
    if a != "" && a[0] == b[0] == c[0] {
      StringTransitive(a[1..], b[1..], c[1..]);
    }
  }

  /** The first difference decides, and a proper prefix comes first. */
  lemma {:induction false} StringLessAt(a: string, b: string, i: nat)
    requires i <= |a| && i < |b| && a[..i] == b[..i]
    ensures i == |a| ==> StringLess(a, b)
    ensures i < |a| && a[i] < b[i] ==> StringLess(a, b)
  {
    if i > 0 {
      assert a[0] == a[..i][0] && b[0] == b[..i][0];
      assert a[1..][..i - 1] == a[..i][1..] && b[1..][..i - 1] == b[..i][1..];
      StringLessAt(a[1..], b[1..], i - 1);
    }
  }

  // ---------------------------------------------------------------------------------------------
  // Ranks
  // ---------------------------------------------------------------------------------------------

  function ProfileRank(value: string, requested: string): nat {
    var v, r := Normalize(value), Normalize(requested);
    if r == "" || r == "adaptive" then (if v == "adaptive" then 0 else 1)
    else if v == r then 0
    else if v == "adaptive" || v == "" then 1
    else 2
  }

  predicate IsEffort(text: string) {
    text == "high" || text == "medium" || text == "low"
  }

  function ResolveEffort(m: Model): string {
    if IsEffort(Normalize(m.effort)) then Normalize(m.effort)
    else if IsEffort(Normalize(m.thinkingTier)) then Normalize(m.thinkingTier)
    else "medium"
  }

  function EffortRank(effort: string, requested: string): nat {
    var r, e := Normalize(requested), Normalize(effort);
    if e == r then 0
    else if e == "adaptive" || e == "" then 1
    else if r == "low" && e == "medium" then 1
    else if r == "high" && e == "medium" then 1
    else 2
  }

  function CanonicalRank(name: string): nat {
    if Normalize(name) == "oracle" then 0 else 1
  }

  datatype Profile = Profile(domain: string, mode: string, effort: string)

  datatype Key = Key(domain: nat, mode: nat, effort: nat, canonical: nat, name: string)

  function KeyOf(models: Registry, wanted: Profile, name: string): Key
    requires name in models
  {
    var m := models[name];
    Key(ProfileRank(Normalize(m.domain), wanted.domain), ProfileRank(Normalize(m.mode), wanted.mode),
        EffortRank(ResolveEffort(m), wanted.effort), CanonicalRank(name), name)
  }

  predicate Less(a: Key, b: Key) {
    a.domain < b.domain || (a.domain == b.domain && (
      a.mode < b.mode || (a.mode == b.mode && (
        a.effort < b.effort || (a.effort == b.effort && (
          a.canonical < b.canonical || (a.canonical == b.canonical && StringLess(a.name, b.name))))))))
  }

  lemma LessTotal(a: Key, b: Key)
    ensures a == b || Less(a, b) || Less(b, a)
    ensures !(Less(a, b) && Less(b, a)) && (a == b ==> !Less(a, b))
  {
    StringTrichotomy(a.name, b.name);
  }

  lemma LessTransitive(a: Key, b: Key, c: Key)
    requires Less(a, b) && Less(b, c)
    ensures Less(a, c)
  {
    if StringLess(a.name, b.name) && StringLess(b.name, c.name) {
      StringTransitive(a.name, b.name, c.name);
    }
  }

  // A domain or mode that leaves the choice open.
  predicate IsOpen(value: string) {
    Normalize(value) == "" || Normalize(value) == "adaptive"
  }

  predicate Suits(value: string, requested: string) {
    Normalize(value) == Normalize(requested)
  }

  /** For a definite request a match comes before a model that leaves it open, and that before any
      other; for an open one the adaptive models come first and the rest are alike. */
  lemma RankMeaning(value: string, other: string, requested: string)
    ensures !IsOpen(requested) && Suits(value, requested) && !Suits(other, requested) ==>
      ProfileRank(value, requested) < ProfileRank(other, requested)
    ensures !IsOpen(requested) && IsOpen(value) && !IsOpen(other) && !Suits(other, requested) ==>
      ProfileRank(value, requested) < ProfileRank(other, requested)
    ensures IsOpen(requested) && Normalize(value) == "adaptive" != Normalize(other) ==>
      ProfileRank(value, requested) < ProfileRank(other, requested)
    ensures IsOpen(requested) && Normalize(value) != "adaptive" && Normalize(other) != "adaptive" ==>
      ProfileRank(value, requested) == ProfileRank(other, requested)
  {}

  /** The requested effort comes first, then its neighbours, then the opposite. */
  lemma EffortMeaning()
    ensures EffortRank("high", "high") < EffortRank("medium", "high") < EffortRank("low", "high")
    ensures EffortRank("low", "low") < EffortRank("medium", "low") < EffortRank("high", "low")
    ensures EffortRank("medium", "medium") < EffortRank("high", "medium") == EffortRank("low", "medium")
  {
    Efforts();
  }

  lemma Efforts()
    ensures Normalize("high") == "high" && Normalize("medium") == "medium" && Normalize("low") == "low"
  {
    assert Trim("high") == "high" && Trim("medium") == "medium" && Trim("low") == "low";
  }

  /** The effort of a model is its own if it is one of the three, else its thinking tier's if that is,
      else medium. */
  lemma EffortOf(m: Model)
    ensures Normalize(m.effort) in ["high", "medium", "low"] ==> ResolveEffort(m) == Normalize(m.effort)
    ensures Normalize(m.effort) !in ["high", "medium", "low"] && Normalize(m.thinkingTier) in ["high", "medium", "low"]
      ==> ResolveEffort(m) == Normalize(m.thinkingTier)
    ensures Normalize(m.effort) !in ["high", "medium", "low"] && Normalize(m.thinkingTier) !in ["high", "medium", "low"]
      ==> ResolveEffort(m) == "medium"
  {}

  /** What decides between two candidates: first the domain, then the mode, then the effort, then which
      is the canonical oracle, then the name. */
  lemma DomainFirst(models: Registry, wanted: Profile, a: string, b: string)
    requires a in models && b in models
    requires var x, y := Normalize(models[a].domain), Normalize(models[b].domain);
      ProfileRank(x, wanted.domain) < ProfileRank(y, wanted.domain)
    ensures Less(KeyOf(models, wanted, a), KeyOf(models, wanted, b))
  {}

  lemma ThenMode(models: Registry, wanted: Profile, a: string, b: string)
    requires a in models && b in models && Normalize(models[a].domain) == Normalize(models[b].domain)
    requires var x, y := Normalize(models[a].mode), Normalize(models[b].mode);
      ProfileRank(x, wanted.mode) < ProfileRank(y, wanted.mode)
    ensures Less(KeyOf(models, wanted, a), KeyOf(models, wanted, b))
  {}

  lemma ThenEffort(models: Registry, wanted: Profile, a: string, b: string)
    requires a in models && b in models
    requires Normalize(models[a].domain) == Normalize(models[b].domain)
    requires Normalize(models[a].mode) == Normalize(models[b].mode)
    ensures EffortRank(ResolveEffort(models[a]), wanted.effort) < EffortRank(ResolveEffort(models[b]), wanted.effort)
      ==> Less(KeyOf(models, wanted, a), KeyOf(models, wanted, b))
    ensures ResolveEffort(models[a]) == ResolveEffort(models[b]) ==>
      && (Normalize(a) == "oracle" != Normalize(b) ==> Less(KeyOf(models, wanted, a), KeyOf(models, wanted, b)))
      && ((Normalize(a) == "oracle" <==> Normalize(b) == "oracle") ==>
            (Less(KeyOf(models, wanted, a), KeyOf(models, wanted, b)) <==> StringLess(a, b)))
  {}

  /** So with everything else alike, a candidate of the wanted domain, or mode, beats one of another. */
  lemma MatchWins(models: Registry, wanted: Profile, a: string, b: string)
    requires a in models && b in models
    ensures var x, y := Normalize(models[a].domain), Normalize(models[b].domain);
      !IsOpen(wanted.domain) && Suits(x, wanted.domain) && !Suits(y, wanted.domain) ==>
        Less(KeyOf(models, wanted, a), KeyOf(models, wanted, b))
    ensures var x, y := Normalize(models[a].mode), Normalize(models[b].mode);
      Normalize(models[a].domain) == Normalize(models[b].domain) &&
      !IsOpen(wanted.mode) && Suits(x, wanted.mode) && !Suits(y, wanted.mode) ==>
        Less(KeyOf(models, wanted, a), KeyOf(models, wanted, b))
  {
    RankMeaning(Normalize(models[a].domain), Normalize(models[b].domain), wanted.domain);
    RankMeaning(Normalize(models[a].mode), Normalize(models[b].mode), wanted.mode);
  }

  // ---------------------------------------------------------------------------------------------
  // Picking a candidate
  // ---------------------------------------------------------------------------------------------

  predicate Eligible(models: Registry, names: seq<string>, name: string) {
    name in names && name in models && !Blocked(models[name])
  }

  /** The best candidate: the one eligible name whose key is below that of every other. */
  ghost predicate IsPick(models: Registry, wanted: Profile, names: seq<string>, pick: Option<string>) {
    match pick
    case None => forall name :: !Eligible(models, names, name)
    case Some(best) =>
      && Eligible(models, names, best)
      && forall name :: Eligible(models, names, name) && name != best ==>
           Less(KeyOf(models, wanted, best), KeyOf(models, wanted, name))
  }

  /** A candidate with its key and the profile it resolves to. */
  datatype Choice = Choice(key: Key, name: string, domain: string, mode: string, effort: string)

  function ChoiceOf(models: Registry, wanted: Profile, name: string): Choice
    requires name in models
  {
    Choice(KeyOf(models, wanted, name), name, Normalize(models[name].domain), Normalize(models[name].mode),
           ResolveEffort(models[name]))
  }

  ghost predicate AreOptions(models: Registry, wanted: Profile, names: seq<string>, options: seq<Choice>) {
    && (forall o :: o in options ==> Eligible(models, names, o.name) && o == ChoiceOf(models, wanted, o.name))
    && (forall name :: Eligible(models, names, name) ==> ChoiceOf(models, wanted, name) in options)
  }

  lemma OptionStep(models: Registry, wanted: Profile, names: seq<string>, options: seq<Choice>, name: string)
    requires AreOptions(models, wanted, names, options)
    ensures AreOptions(models, wanted, names + [name],
      if name in models && !Blocked(models[name]) then options + [ChoiceOf(models, wanted, name)] else options)
  {
    assert forall n :: n in names + [name] <==> n in names || n == name;
  }

  // `sorted(options, key=...)[0]`
  method Smallest(options: seq<Choice>) returns (best: Choice)
    requires options != []
    ensures best in options && forall o :: o in options ==> o.key == best.key || Less(best.key, o.key)
  {
    best := options[0];
    for i := 1 to |options|
      invariant best in options
      invariant forall j :: 0 <= j < i ==> options[j].key == best.key || Less(best.key, options[j].key)
    {
      if Less(options[i].key, best.key) {
        forall j | 0 <= j < i
          ensures Less(options[i].key, options[j].key)
        {
          if options[j].key != best.key {
            LessTransitive(options[i].key, best.key, options[j].key);
          }
        }
        best := options[i];
      } else {
        LessTotal(options[i].key, best.key);
      }
    }
  }

  lemma SmallestIsPick(models: Registry, wanted: Profile, names: seq<string>, options: seq<Choice>, best: Choice)
    requires AreOptions(models, wanted, names, options) && best in options
    requires forall o :: o in options ==> o.key == best.key || Less(best.key, o.key)
    ensures IsPick(models, wanted, names, Some(best.name))
  {
    forall name | Eligible(models, names, name) && name != best.name
      ensures Less(KeyOf(models, wanted, best.name), KeyOf(models, wanted, name))
    {
      assert ChoiceOf(models, wanted, name) in options;
    }
  }

  method PickProfiledCandidate(models: Registry, wanted: Profile, names: seq<string>) returns (pick: Option<string>)
    ensures IsPick(models, wanted, names, pick)
  {
    var options: seq<Choice> := [];
    for i := 0 to |names|
      invariant AreOptions(models, wanted, names[..i], options)
    {
      OptionStep(models, wanted, names[..i], options, names[i]);
      assert names[..i + 1] == names[..i] + [names[i]];
      if names[i] in models && !Blocked(models[names[i]]) {
        options := options + [ChoiceOf(models, wanted, names[i])];
      }
    }
    assert names[..|names|] == names;
    if options == [] {
      return None;
    }
    var best := Smallest(options);
    SmallestIsPick(models, wanted, names, options, best);
    return Some(best.name);
  }

  method PickProfiledCandidateWithReason(models: Registry, wanted: Profile, names: seq<string>)
      returns (pick: Option<Choice>)
    ensures IsPick(models, wanted, names, if pick.Some? then Some(pick.value.name) else None)
    ensures pick.Some? ==> pick.value == ChoiceOf(models, wanted, pick.value.name)
  {
    var options: seq<Choice> := [];
    for i := 0 to |names|
      invariant AreOptions(models, wanted, names[..i], options)
    {
      OptionStep(models, wanted, names[..i], options, names[i]);
      assert names[..i + 1] == names[..i] + [names[i]];
      if names[i] in models && !Blocked(models[names[i]]) {
        options := options + [ChoiceOf(models, wanted, names[i])];
      }
    }
    assert names[..|names|] == names;
    if options == [] {
      return None;
    }
    var best := Smallest(options);
    SmallestIsPick(models, wanted, names, options, best);
    return Some(best);
  }

  /** The pick depends only on which names are candidates: both pickers agree, whatever the order. */
  lemma PickUnique(models: Registry, wanted: Profile, names: seq<string>, others: seq<string>,
                   a: Option<string>, b: Option<string>)
    requires IsPick(models, wanted, names, a) && IsPick(models, wanted, others, b)
    requires forall name :: name in names <==> name in others
    ensures a == b
  {
    assert forall name :: Eligible(models, names, name) <==> Eligible(models, others, name);
    if a.Some? && b.Some? {
      LessTotal(KeyOf(models, wanted, a.value), KeyOf(models, wanted, b.value));
    }
  }

  // ---------------------------------------------------------------------------------------------
  // The oracle route
  // ---------------------------------------------------------------------------------------------

  const SAFE_MODELS := ["oracle", "oracle-9b-router", "oracle-qwen35-9b", "oracle-fast", "nayru", "din", "navi"]

  // Entry `k` of the safe list is the first usable one.
  ghost predicate FirstSafe(models: Registry, k: nat)
    requires k < |SAFE_MODELS|
  {
    && Eligible(models, SAFE_MODELS, SAFE_MODELS[k])
    && forall j :: 0 <= j < k ==> !Eligible(models, SAFE_MODELS, SAFE_MODELS[j])
  }

  method PreferredSafeModel(models: Registry) returns (pick: Option<string>)
    ensures pick.Some? ==> exists k :: 0 <= k < |SAFE_MODELS| && pick.value == SAFE_MODELS[k] && FirstSafe(models, k)
    ensures pick.None? ==> forall name :: !Eligible(models, SAFE_MODELS, name)
  {
    for k := 0 to |SAFE_MODELS|
      invariant forall j :: 0 <= j < k ==> !Eligible(models, SAFE_MODELS, SAFE_MODELS[j])
    {
      if SAFE_MODELS[k] in models && !Blocked(models[SAFE_MODELS[k]]) {
        return Some(SAFE_MODELS[k]);
      }
    }
    return None;
  }

  /** What the keyword router finds for the prompt, and its default. */
  datatype Router = Router(matched: Option<string>, default: string)

  datatype Reason = ToolHint | RouterRule | ProfileMatch(ranks: Key) | RouterDefault
    | SafeModel | ActiveModel | Llamacpp | Manual | OrchestratorExplicit | OrchestratorAuto
    | OrchestratorFallback | BroadcastPrimary | BroadcastEmpty

  predicate Usable(models: Registry, name: string) {
    name in models && !Blocked(models[name])
  }

  // The zelda models of the registry, or the safe list if there is none.
  function OracleCandidates(visible: seq<string>): seq<string> {
    if visible != [] then visible else SAFE_MODELS
  }

  predicate Named(models: Registry, name: Option<string>) {
    name.Some? && name.value != "" && Usable(models, name.value)
  }

  function Matched(router: Option<Router>): Option<string> {
    if router.Some? then router.value.matched else None
  }

  function Default(router: Option<Router>): Option<string> {
    if router.Some? then Some(router.value.default) else None
  }

  /** The tool hint wins, then the keyword router, then the best profile, then the router's
      default; each only if its model is known and not blocked. */
  method OracleRoute(models: Registry, wanted: Profile, visible: seq<string>,
                     hint: Option<string>, router: Option<Router>)
      returns (pick: Option<(string, Reason)>)
    ensures pick.Some? ==> Usable(models, pick.value.0)
    ensures Named(models, hint) ==> pick == Some((hint.value, ToolHint))
    ensures !Named(models, hint) && Named(models, Matched(router)) ==> pick == Some((Matched(router).value, RouterRule))
    ensures !Named(models, hint) && !Named(models, Matched(router)) ==>
      var candidates := if visible != [] then visible else SAFE_MODELS;
      if exists name :: Eligible(models, candidates, name) then
        && pick.Some? && IsPick(models, wanted, candidates, Some(pick.value.0))
        && pick.value.1 == ProfileMatch(KeyOf(models, wanted, pick.value.0))
      else
        pick == if Named(models, Default(router)) then Some((router.value.default, RouterDefault)) else None
  {
    if hint.Some? && hint.value != "" && hint.value in models {
      if !Blocked(models[hint.value]) {
        return Some((hint.value, ToolHint));
      }
    }
    if router.Some? && router.value.matched.Some? && router.value.matched.value != "" {
      var name := router.value.matched.value;
      if name in models && !Blocked(models[name]) {
        return Some((name, RouterRule));
      }
    }
    var profile := PickProfiledCandidateWithReason(models, wanted, OracleCandidates(visible));
    if profile.Some? {
      return Some((profile.value.name, ProfileMatch(profile.value.key)));
    }
    if router.Some? && router.value.default != "" && router.value.default in models {
      if !Blocked(models[router.value.default]) {
        return Some((router.value.default, RouterDefault));
      }
    }
    return None;
  }

  datatype Mode = ManualMode | OracleMode | OrchestratorMode | BroadcastMode | UnknownMode

  /** A routing decision names its target and says why; `target` indexes no registry entry when the
      fallback model is made up from the active model's name. */
  datatype Decision = Decision(target: string, reason: Reason, mode: Mode)

  datatype Request = Request(
    models: Registry, wanted: Profile, visible: seq<string>, hint: Option<string>, router: Option<Router>,
    activeModel: string, mode: Mode, broadcast: seq<string>, llamacpp: Option<string>,
    orchestrator: string, autoOrchestrator: Option<string>)

  // The active model, even if the registry does not know it.
  function Fallback(r: Request): Model {
    if r.activeModel in r.models then r.models[r.activeModel]
    else Model(r.activeModel, "", "", "", "", "")
  }

  ghost predicate OneForOne(targets: seq<Model>, decisions: seq<Decision>) {
    |targets| == |decisions| && forall i :: 0 <= i < |targets| ==> decisions[i].target == targets[i].name
  }

  // Which model the oracle mode goes to, and why.
  ghost predicate OracleTarget(r: Request, target: Model, reason: Reason) {
    var candidates := if r.visible != [] then r.visible else SAFE_MODELS;
    if Named(r.models, r.hint) then target == r.models[r.hint.value] && reason == ToolHint
    else if Named(r.models, Matched(r.router)) then
      target == r.models[r.router.value.matched.value] && reason == RouterRule
    else if exists name :: Eligible(r.models, candidates, name) then
      exists name ::
        && IsPick(r.models, r.wanted, candidates, Some(name))
        && target == r.models[name] && reason == ProfileMatch(KeyOf(r.models, r.wanted, name))
    else if Named(r.models, Default(r.router)) then
      target == r.models[r.router.value.default] && reason == RouterDefault
    else if exists k :: 0 <= k < |SAFE_MODELS| && Eligible(r.models, SAFE_MODELS, SAFE_MODELS[k]) then
      exists k :: 0 <= k < |SAFE_MODELS| && FirstSafe(r.models, k) && target == r.models[SAFE_MODELS[k]]
        && reason == SafeModel
    else target == Fallback(r) && reason == ActiveModel
  }

  method ResolveOracle(r: Request) returns (target: Model, decision: Decision)
    ensures OracleTarget(r, target, decision.reason)
    ensures decision.target == target.name && decision.mode == OracleMode
    ensures Blocked(target) ==>
      && target == Fallback(r)
      && (forall name :: !Eligible(r.models, OracleCandidates(r.visible), name))
      && (forall name :: !Eligible(r.models, SAFE_MODELS, name))
  {
    var route := OracleRoute(r.models, r.wanted, r.visible, r.hint, r.router);
    if route.Some? {
      target := r.models[route.value.0];
      return target, Decision(target.name, route.value.1, OracleMode);
    }
    var again := PickProfiledCandidateWithReason(r.models, r.wanted, OracleCandidates(r.visible));
    if again.Some? {
      // The same pick as in the route: it cannot succeed where that one failed.
      assert false;
    }
    var safe := PreferredSafeModel(r.models);
    if safe.Some? {
      target := r.models[safe.value];
      return target, Decision(target.name, SafeModel, OracleMode);
    }
    target := Fallback(r);
    decision := Decision(target.name, ActiveModel, OracleMode);
  }

  ghost predicate BroadcastTo(r: Request, targets: seq<Model>) {
    if exists n :: n in r.broadcast && n in r.models then InOrder(r.models, r.broadcast, targets)
    else targets == [Fallback(r)]
  }

  method ResolveBroadcast(r: Request) returns (targets: seq<Model>, decisions: seq<Decision>)
    ensures targets != [] && OneForOne(targets, decisions)
    ensures BroadcastTo(r, targets)
    ensures AllFor(decisions,
      if exists n :: n in r.broadcast && n in r.models then BroadcastPrimary else BroadcastEmpty)
  {
    targets := Known(r.models, r.broadcast, |r.broadcast|);
    KnownInOrder(r.models, r.broadcast, |r.broadcast|);
    AnyKnown(r.models, r.broadcast, |r.broadcast|);
    if targets != [] {
      decisions := seq(|targets|, i requires 0 <= i < |targets| =>
        Decision(targets[i].name, BroadcastPrimary, r.mode));
    } else {
      targets := [Fallback(r)];
      decisions := [Decision(targets[0].name, BroadcastEmpty, r.mode)];
    }
  }

  predicate AllFor(decisions: seq<Decision>, reason: Reason) {
    forall d :: d in decisions ==> d.reason == reason
  }

  // The active model, made up from its name if the registry does not know it.
  predicate IsActive(r: Request, target: Model) {
    if r.activeModel in r.models then target == r.models[r.activeModel]
    else target == Model(r.activeModel, "", "", "", "", "")
  }

  // Who orchestrates: the model asked for, else the automatic one, else the active one.
  predicate Orchestrates(r: Request, target: Model, reason: Reason) {
    if r.orchestrator != "" && r.orchestrator in r.models then
      target == r.models[r.orchestrator] && reason == OrchestratorExplicit
    else if r.autoOrchestrator.Some? && r.autoOrchestrator.value in r.models then
      target == r.models[r.autoOrchestrator.value] && reason == OrchestratorAuto
    else IsActive(r, target) && reason == OrchestratorFallback
  }

  ghost predicate TargetsOf(r: Request, targets: seq<Model>, decisions: seq<Decision>) {
    && OneForOne(targets, decisions) && targets != []
    && (if r.llamacpp.Some? then
          targets == [Model(r.llamacpp.value, "", "", "", "", "")] && AllFor(decisions, Llamacpp)
        else match r.mode
          case ManualMode => |targets| == 1 && IsActive(r, targets[0]) && AllFor(decisions, Manual)
          case OracleMode => |targets| == 1 && OracleTarget(r, targets[0], decisions[0].reason)
          case OrchestratorMode => |targets| == 1 && Orchestrates(r, targets[0], decisions[0].reason)
          case BroadcastMode => BroadcastTo(r, targets)
          case UnknownMode => false)
  }

  /** Targets and decisions, one for one, in every mode; only an unknown mode is an error. */
  method ResolveTargetsWithReason(r: Request) returns (result: Option<(seq<Model>, seq<Decision>)>)
    ensures result.None? <==> r.llamacpp.None? && r.mode == UnknownMode
    ensures result.Some? ==> result.value.0 != [] && OneForOne(result.value.0, result.value.1)
    ensures result.Some? ==> TargetsOf(r, result.value.0, result.value.1)
    ensures r.llamacpp.None? && r.mode == OracleMode && result.Some? && Blocked(result.value.0[0]) ==>
      && (forall name :: !Eligible(r.models, OracleCandidates(r.visible), name))
      && (forall name :: !Eligible(r.models, SAFE_MODELS, name))
    ensures r.llamacpp.None? && r.mode == BroadcastMode && result.Some? ==>
      BroadcastTo(r, result.value.0)
  {
    if r.llamacpp.Some? {
      var target := Model(r.llamacpp.value, "", "", "", "", "");
      return Some(([target], [Decision(target.name, Llamacpp, r.mode)]));
    }
    var fallback := Fallback(r);
    match r.mode
    case ManualMode =>
      return Some(([fallback], [Decision(fallback.name, Manual, r.mode)]));
    case OracleMode =>
      var target, decision := ResolveOracle(r);
      return Some(([target], [decision]));
    case OrchestratorMode =>
      if r.orchestrator != "" && r.orchestrator in r.models {
        var target := r.models[r.orchestrator];
        return Some(([target], [Decision(target.name, OrchestratorExplicit, r.mode)]));
      }
      if r.autoOrchestrator.Some? && r.autoOrchestrator.value in r.models {
        var target := r.models[r.autoOrchestrator.value];
        return Some(([target], [Decision(target.name, OrchestratorAuto, r.mode)]));
      }
      return Some(([fallback], [Decision(fallback.name, OrchestratorFallback, r.mode)]));
    case BroadcastMode =>
      var targets, decisions := ResolveBroadcast(r);
      return Some((targets, decisions));
    case UnknownMode =>
      return None;
  }

  // The models of the known names among the first k.
  function Known(models: Registry, names: seq<string>, k: nat): seq<Model>
    requires k <= |names|
  {
    if k == 0 then [] else
      Known(models, names, k - 1) + if names[k - 1] in models then [models[names[k - 1]]] else []
  }

  function KnownBefore(models: Registry, names: seq<string>, k: nat): nat
    requires k <= |names|
  {
    if k == 0 then 0 else KnownBefore(models, names, k - 1) + if names[k - 1] in models then 1 else 0
  }

  /** One target for each mention of a known name, in the order of mention, and no other. */
  ghost predicate InOrder(models: Registry, names: seq<string>, targets: seq<Model>) {
    && |targets| == KnownBefore(models, names, |names|)
    && forall k :: 0 <= k < |names| && names[k] in models ==>
         var i := KnownBefore(models, names, k); i < |targets| && targets[i] == models[names[k]]
  }

  lemma {:induction false} KnownInOrder(models: Registry, names: seq<string>, n: nat)
    requires n <= |names|
    ensures |Known(models, names, n)| == KnownBefore(models, names, n)
    ensures forall k :: 0 <= k < n && names[k] in models ==>
      var i := KnownBefore(models, names, k);
      i < |Known(models, names, n)| && Known(models, names, n)[i] == models[names[k]]
  {
    if n > 0 {
      KnownInOrder(models, names, n - 1);
    }
  }

  lemma {:induction false} AnyKnown(models: Registry, names: seq<string>, n: nat)
    requires n <= |names|
    ensures KnownBefore(models, names, n) > 0 <==> exists k :: 0 <= k < n && names[k] in models
  {
    if n > 0 {
      AnyKnown(models, names, n - 1);
    }
  }
}
