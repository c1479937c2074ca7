/**
 The upstream tracer of `MetaDataZaKo.run`: starting from the node's own
 `workflow` input, walk the graph through Reroute nodes until a load-image
 node is found, giving up after a fixed number of lookups.
 */
module Trace {
  import opened Wrappers
  import opened Graph

  /** The hard cap on graph lookups (`for _ in range(50)`). */
  const TraceLimit: nat := 50

  /** Why a trace found nothing, one per exit path of `run`'s tracing code. */
  datatype Reason =
    | Unconnected   // prompt or unique_id falsy, or the workflow input is not a link
    | Missing       // dangling id, or a None or empty node record
    | Unsupported   // neither a load-image node nor a Reroute with a link as first input
    | Raised        // a lookup raised (own node missing or None, or an empty link list)
    | LimitReached  // the cap ran out before a load-image node was found

  datatype Outcome = Found(id: NodeId, node: NodeObj) | NotFound(reason: Reason)

  predicate IsLoadImage(n: NodeObj)
    ensures IsLoadImage(n) ==> n.Obj? && n.classType.Some? && !IsFalsy(n) &&
                               n.classType.value in LoadImageTypes
  {
    n.Obj? && ClassTypeOf(n) in LoadImageTypes
  }

  /** `list(inputs.values())[0]`, when the node has any inputs. */
  function FirstInput(n: NodeObj): Option<Value>
    requires n.Obj?
  {
    var ins := InputsOf(n);
    if ins == [] then None else Some(ins[0].1)
  }

  /** The walk with `fuel` lookups left, starting at node `id`. */
  function Walk(g: Graph, id: NodeId, fuel: nat): (r: Outcome)
    ensures r.Found? ==> r.id in g && g[r.id] == r.node && IsLoadImage(r.node)
    ensures r.NotFound? ==> r.reason != Unconnected
    decreases fuel
  {
    if fuel == 0 then NotFound(LimitReached)
    else if id !in g || IsFalsy(g[id]) then NotFound(Missing)
    else
      var n := g[id];
      if ClassTypeOf(n) in LoadImageTypes then Found(id, n)
      else if ClassTypeOf(n) == RerouteType && FirstInput(n).Some? then
        match FirstInput(n).value
        case Link(next) => Walk(g, next, fuel - 1)
        case EmptyList => NotFound(Raised)
        case Literal(_) => NotFound(Unsupported)
      else NotFound(Unsupported)
  }

  /** `run`'s tracing loop as written, one lookup per iteration. */
  method TraceUpstream(g: Graph, start: NodeId) returns (r: Outcome, lookups: nat)
    ensures r == Walk(g, start, TraceLimit)
    ensures 1 <= lookups <= TraceLimit
  {
    var current := start;
    r := NotFound(LimitReached);
    lookups := 0;
    for step := 0 to TraceLimit
      invariant lookups == step
      invariant r == NotFound(LimitReached)
      invariant Walk(g, current, TraceLimit - step) == Walk(g, start, TraceLimit)
    {
      lookups := lookups + 1;
      if current !in g || IsFalsy(g[current]) {
        r := NotFound(Missing);
        break;
      }
      var node := g[current];
      var classType := ClassTypeOf(node);
      if classType in LoadImageTypes {
        r := Found(current, node);
        break;
      }
      if classType == RerouteType {
        var inputs := InputsOf(node);
        if inputs != [] {
          var prevLink := inputs[0].1;
          if prevLink.Link? {
            current := prevLink.id;
            continue;
          } else if prevLink.EmptyList? {
            r := NotFound(Raised);
            break;
          }
        }
      }
      r := NotFound(Unsupported);
      break;
    }
  }

  /** `prompt` is truthy: present and not an empty dict. */
  predicate PromptGiven(prompt: Option<Graph>) {
    prompt.Some? && prompt.value != map[]
  }

  /** `unique_id` is truthy: present and not the empty string. */
  predicate IdGiven(uid: Option<NodeId>) {
    uid.Some? && uid.value != ""
  }

  /** The node's own `workflow` input, when the own record can be read. */
  function OwnWorkflowInput(g: Graph, uid: NodeId): (r: Option<Value>)
    requires uid in g && g[uid].Obj?
    ensures r.Some? ==> g[uid].inputs.Some?
    ensures r.None? <==> forall i :: 0 <= i < |InputsOf(g[uid])| ==> InputsOf(g[uid])[i].0 != "workflow"
  {
    Lookup(InputsOf(g[uid]), "workflow")
  }

  /** The whole tracing phase: read the own `workflow` input, then walk. */
  function Resolve(prompt: Option<Graph>, uid: Option<NodeId>): (r: Outcome)
    ensures r.Found? ==> PromptGiven(prompt) && IdGiven(uid) &&
                         r.id in prompt.value && prompt.value[r.id] == r.node && IsLoadImage(r.node)
  {
    if !PromptGiven(prompt) || !IdGiven(uid) then NotFound(Unconnected)
    else if uid.value !in prompt.value || prompt.value[uid.value].Null? then NotFound(Raised)
    else match OwnWorkflowInput(prompt.value, uid.value)
      case Some(Link(start)) => Walk(prompt.value, start, TraceLimit)
      case _ => NotFound(Unconnected)
  }

  // ---------------------------------------------------------------------
  // Properties of the walk

  /** `a` is a Reroute node whose first input links to `b`. */
  predicate RerouteStep(g: Graph, a: NodeId, b: NodeId) {
    a in g && g[a].Obj? && g[a].classType == Some(RerouteType) && FirstInput(g[a]) == Some(Link(b))
  }

  /** `path` is a chain of nodes, each one a Reroute whose first input links to the next. */
  ghost predicate IsRerouteChain(g: Graph, path: seq<NodeId>) {
    |path| >= 1 && forall j :: 0 <= j < |path| - 1 ==> RerouteStep(g, path[j], path[j + 1])
  }

  lemma TailIsChain(g: Graph, path: seq<NodeId>)
    requires IsRerouteChain(g, path) && |path| >= 2
    ensures IsRerouteChain(g, path[1..]) && RerouteStep(g, path[0], path[1])
  {
  }

  /** A chain of Reroutes ending in a load-image node resolves to that node
      when the chain has no more nodes than lookups remain. */
  lemma {:induction false} ChainResolves(g: Graph, path: seq<NodeId>, fuel: nat)
    requires IsRerouteChain(g, path) && |path| <= fuel
    requires path[|path| - 1] in g && IsLoadImage(g[path[|path| - 1]])
    ensures Walk(g, path[0], fuel) == Found(path[|path| - 1], g[path[|path| - 1]])
  {
    if |path| > 1 {
      TailIsChain(g, path);
      ChainResolves(g, path[1..], fuel - 1);
    }
  }

  /** Conversely, every node the walk finds ends a Reroute chain from the
      start that fits in the lookups available. */
  lemma {:induction false} FoundViaChain(g: Graph, id: NodeId, fuel: nat) returns (path: seq<NodeId>)
    requires Walk(g, id, fuel).Found?
    ensures IsRerouteChain(g, path) && |path| <= fuel
    ensures path[0] == id && path[|path| - 1] == Walk(g, id, fuel).id
    decreases fuel
  {
    var n := g[id];
    if ClassTypeOf(n) in LoadImageTypes {
      path := [id];
    } else {
      var next := FirstInput(n).value.id;
      assert RerouteStep(g, id, next);
      var rest := FoundViaChain(g, next, fuel - 1);
      path := [id] + rest;
      assert forall j :: 1 <= j < |path| ==> path[j] == rest[j - 1];
    }
  }

  /** A chain of Reroutes longer than the lookups available exhausts the cap. */
  lemma {:induction false} LongChainExhausts(g: Graph, path: seq<NodeId>, fuel: nat)
    requires IsRerouteChain(g, path) && |path| > fuel
    ensures Walk(g, path[0], fuel) == NotFound(LimitReached)
  {
    if fuel > 0 {
      TailIsChain(g, path);
      LongChainExhausts(g, path[1..], fuel - 1);
    }
  }

  /** Every node of `s` is a Reroute whose first input links back into `s`:
      a Reroute cycle, or anything that can only lead into one. */
  ghost predicate RerouteClosed(g: Graph, s: set<NodeId>) {
    forall a :: a in s ==> RerouteLink(g, a).Some? && RerouteLink(g, a).value in s
  }

  /** The node a Reroute's first input links to, if `a` is such a Reroute. */
  function RerouteLink(g: Graph, a: NodeId): (r: Option<NodeId>)
    ensures r.Some? <==> exists b :: RerouteStep(g, a, b)
    ensures r.Some? ==> RerouteStep(g, a, r.value)
  {
    if a in g && g[a].Obj? && g[a].classType == Some(RerouteType) &&
       FirstInput(g[a]).Some? && FirstInput(g[a]).value.Link?
    then
      var b := FirstInput(g[a]).value.id;
      assert RerouteStep(g, a, b);
      Some(b)
    else None
  }

  /** The walk terminates on Reroute cycles, with the cap exhausted and no node found. */
  lemma {:induction false} RerouteCycleExhausts(g: Graph, s: set<NodeId>, id: NodeId, fuel: nat)
    requires RerouteClosed(g, s) && id in s
    ensures Walk(g, id, fuel) == NotFound(LimitReached)
    decreases fuel
  {
    if fuel > 0 {
      RerouteCycleExhausts(g, s, RerouteLink(g, id).value, fuel - 1);
    }
  }

  /** A Reroute whose first input links to itself yields no node. */
  lemma SelfRerouteExhausts(g: Graph, id: NodeId)
    requires RerouteStep(g, id, id)
    ensures Walk(g, id, TraceLimit) == NotFound(LimitReached)
  {
    RerouteCycleExhausts(g, {id}, id, TraceLimit);
  }

  /** Every way the walk stops short of the cap without a find, at the node it looks up. */
  lemma WalkStops(g: Graph, id: NodeId, fuel: nat)
    requires fuel > 0
    ensures id !in g || IsFalsy(g[id]) ==> Walk(g, id, fuel) == NotFound(Missing)
    ensures id in g && g[id].Obj? && g[id].classType.None? ==> Walk(g, id, fuel).NotFound?
    ensures id in g && g[id].Obj? && g[id].classType.Some? &&
            g[id].classType.value !in LoadImageTypes && g[id].classType.value != RerouteType
            ==> Walk(g, id, fuel) == NotFound(Unsupported)
    ensures id in g && g[id].Obj? && g[id].classType == Some(RerouteType) && FirstInput(g[id]).None?
            ==> Walk(g, id, fuel) == NotFound(Unsupported)
    ensures id in g && g[id].Obj? && g[id].classType == Some(RerouteType) &&
            FirstInput(g[id]).Some? && !FirstInput(g[id]).value.Link?
            ==> Walk(g, id, fuel).NotFound?
  {
  }

  /** No link, no trace: a falsy prompt or id, or an own `workflow` input
      that is absent or not a link, skips the walk. */
  lemma NoLinkNoTrace(prompt: Option<Graph>, uid: Option<NodeId>)
    requires !PromptGiven(prompt) || !IdGiven(uid) ||
             (uid.value in prompt.value && prompt.value[uid.value].Obj? &&
              !(OwnWorkflowInput(prompt.value, uid.value).Some? &&
                OwnWorkflowInput(prompt.value, uid.value).value.Link?))
    ensures Resolve(prompt, uid) == NotFound(Unconnected)
  {
  }
}
