/**
 * Chain of Responsibility: handlers linked through `_next_handler`; each
 * handles the request priority it is responsible for or passes the request
 * on to the next link.
 */
module ChainOfResponsibility {

  /** `Request`: only a priority. */
  datatype Request = Request(priority: int)

  /** `Request()`: the default request has priority 0. */
  function DefaultRequest(): (r: Request)
    ensures r.priority == 0
  {
    Request(0)
  }

  /** The four concrete handler classes. */
  datatype HandlerKind = HighPriority | MediumPriority | LowPriority | UndefinedPriority

  /** Whether a handler of this kind handles the request instead of forwarding it. */
  predicate Handles(kind: HandlerKind, r: Request)
  {
    match kind
    case HighPriority => r.priority == 2
    case MediumPriority => r.priority == 1
    case LowPriority => r.priority == 0
    case UndefinedPriority => true
  }

  /** The line a handler of this kind prints when it handles a request. */
  function HandledMessage(kind: HandlerKind): (line: string)
    ensures |line| > 0 && (line[0] == 'E' <==> kind == UndefinedPriority)
  {
    match kind
    case HighPriority => "Handling a high priority request..."
    case MediumPriority => "Handling a medium priority request..."
    case LowPriority => "Handling a low priority request..."
    case UndefinedPriority => "Error! Request priority undefined."
  }

  /**
   * What `process_request` does along a chain of handler kinds: the handler
   * that handles the request, or `NullNext` when a handler forwards to a
   * null `_next_handler` (undefined behaviour in the program).
   */
  datatype Outcome = HandledBy(kind: HandlerKind) | NullNext

  function Route(chain: seq<HandlerKind>, r: Request): (o: Outcome)
    requires |chain| > 0
    ensures o.HandledBy? ==> o.kind in chain && Handles(o.kind, r)
    decreases |chain|
  {
    if Handles(chain[0], r) then HandledBy(chain[0])
    else if |chain| == 1 then NullNext
    else Route(chain[1..], r)
  }

  /** The request is handled by the first handler in the chain that takes it, and by no other. */
  lemma {:induction false} RouteFirstMatch(chain: seq<HandlerKind>, r: Request, i: nat)
    requires i < |chain| && Handles(chain[i], r)
    requires forall j :: 0 <= j < i ==> !Handles(chain[j], r)
    ensures Route(chain, r) == HandledBy(chain[i])
    decreases i
  {
    if i > 0 {
      assert !Handles(chain[0], r);
      forall j | 0 <= j < i - 1
        ensures !Handles(chain[1..][j], r)
      {
        assert chain[1..][j] == chain[j + 1];
      }
      RouteFirstMatch(chain[1..], r, i - 1);
    }
  }

  /** Whoever handles the request is a handler that takes it, preceded only by handlers that do not. */
  lemma {:induction false} RouteHandledBy(chain: seq<HandlerKind>, r: Request)
    requires |chain| > 0 && Route(chain, r).HandledBy?
    ensures exists i :: 0 <= i < |chain| && Route(chain, r).kind == chain[i] && Handles(chain[i], r) &&
                        forall j :: 0 <= j < i ==> !Handles(chain[j], r)
    decreases |chain|
  {
    if !Handles(chain[0], r) {
      RouteHandledBy(chain[1..], r);
      var i :| 0 <= i < |chain[1..]| && Route(chain[1..], r).kind == chain[1..][i] && Handles(chain[1..][i], r) &&
               forall j :: 0 <= j < i ==> !Handles(chain[1..][j], r);
      assert chain[i + 1] == chain[1..][i];
      forall j | 0 <= j < i + 1
        ensures !Handles(chain[j], r)
      {
        if j > 0 {
          assert chain[j] == chain[1..][j - 1];
        }
      }
    } else {
      assert Handles(chain[0], r);
    }
  }

  /** The chain falls off its end exactly when no handler in it takes the request. */
  lemma {:induction false} RouteNullNext(chain: seq<HandlerKind>, r: Request)
    requires |chain| > 0
    ensures Route(chain, r) == NullNext <==> forall j :: 0 <= j < |chain| ==> !Handles(chain[j], r)
    decreases |chain|
  {
    if !Handles(chain[0], r) && |chain| > 1 {
      RouteNullNext(chain[1..], r);
      if forall j :: 0 <= j < |chain[1..]| ==> !Handles(chain[1..][j], r) {
        forall j | 0 <= j < |chain|
          ensures !Handles(chain[j], r)
        {
          if j > 0 {
            assert chain[j] == chain[1..][j - 1];
          }
        }
      } else {
        var j :| 0 <= j < |chain[1..]| && Handles(chain[1..][j], r);
        assert chain[j + 1] == chain[1..][j];
      }
    }
  }

  /** A chain that ends in the undefined-priority handler never falls off its end. */
  lemma EndsInUndefinedNeverNull(chain: seq<HandlerKind>, r: Request)
    requires |chain| > 0 && chain[|chain| - 1] == UndefinedPriority
    ensures Route(chain, r).HandledBy?
  {
    RouteNullNext(chain, r);
  }

  /** A handler object; `next` is `_next_handler`. */
  class Handler {
    const kind: HandlerKind
    var next: Handler?

    /** A new handler has no successor. */
    constructor (kind: HandlerKind)
      ensures this.kind == kind && next == null
    {
      this.kind := kind;
      next := null;
    }

    /** `set_handler`: links the next handler and returns it, so that calls chain. */
    method SetHandler(handler: Handler?) returns (r: Handler?)
      modifies this
      ensures next == handler && r == handler
    {
      next := handler;
      r := handler;
    }

    /**
     * `process_request` on this handler, where `nodes` lists the handlers
     * reached by following `next` from this one, the last having no successor.
     */
    method ProcessRequest(r: Request, ghost nodes: seq<Handler>) returns (o: Outcome)
      requires Linked(nodes) && nodes[0] == this
      ensures o == Route(KindsOf(nodes), r)
      decreases |nodes|
    {
      if Handles(kind, r) {
        o := HandledBy(kind);
      } else if next == null {
        o := NullNext;
      } else {
        assert nodes[1..][0] == next;
        o := next.ProcessRequest(r, nodes[1..]);
        assert KindsOf(nodes)[1..] == KindsOf(nodes[1..]);
      }
    }
  }

  /** The objects a chain description mentions. */
  function Objects(nodes: seq<Handler>): set<Handler>
  {
    set i | 0 <= i < |nodes| :: nodes[i]
  }

  /** `nodes` is a null-terminated chain of `next` links. */
  predicate Linked(nodes: seq<Handler>)
    reads Objects(nodes)
  {
    && |nodes| > 0
    && (forall i :: 0 <= i < |nodes| - 1 ==> nodes[i].next == nodes[i + 1])
    && nodes[|nodes| - 1].next == null
  }

  function KindsOf(nodes: seq<Handler>): (kinds: seq<HandlerKind>)
    ensures |kinds| == |nodes| && forall i :: 0 <= i < |nodes| ==> kinds[i] == nodes[i].kind
  {
    seq(|nodes|, i requires 0 <= i < |nodes| => nodes[i].kind)
  }

  /** The chain the demonstration builds, from its head. */
  function DemoChain(): seq<HandlerKind>
  {
    [HighPriority, MediumPriority, LowPriority, UndefinedPriority]
  }

  /** The demonstration's four requests reach the handlers its comments name. */
  lemma DemoRoutes()
    ensures Route(DemoChain(), Request(2)) == HandledBy(HighPriority)
    ensures Route(DemoChain(), Request(1)) == HandledBy(MediumPriority)
    ensures Route(DemoChain(), Request(0)) == HandledBy(LowPriority)
    ensures Route(DemoChain(), Request(5)) == HandledBy(UndefinedPriority)
  {
    var c := DemoChain();
    assert c[1..] == [MediumPriority, LowPriority, UndefinedPriority];
    assert c[1..][1..] == [LowPriority, UndefinedPriority];
    assert c[1..][1..][1..] == [UndefinedPriority];
  }

  /**
   * The demonstration's set-up: four handlers linked High -> Medium -> Low ->
   * Undefined, each link made on the handler the previous `set_handler` returned.
   */
  method BuildDemoChain() returns (head: Handler, ghost nodes: seq<Handler>)
    ensures Linked(nodes) && nodes[0] == head && KindsOf(nodes) == DemoChain()
  {
    var undefined := new Handler(UndefinedPriority);
    var low := new Handler(LowPriority);
    var medium := new Handler(MediumPriority);
    var high := new Handler(HighPriority);
    var h := high.SetHandler(medium);
    h := h.SetHandler(low);
    h := h.SetHandler(undefined);
    head := high;
    nodes := [high, medium, low, undefined];
    assert Linked(nodes) by {
      assert high.next == medium && medium.next == low && low.next == undefined && undefined.next == null;
    }
  }

  /** The demonstration: send four requests to the head of the chain. */
  method Client() returns (lines: seq<string>)
    ensures lines == [HandledMessage(HighPriority), HandledMessage(MediumPriority),
                      HandledMessage(LowPriority), HandledMessage(UndefinedPriority)]
  {
    var high, nodes := BuildDemoChain();
    DemoRoutes();
    var o1 := high.ProcessRequest(Request(2), nodes);
    var o2 := high.ProcessRequest(Request(1), nodes);
    var o3 := high.ProcessRequest(Request(0), nodes);
    var o4 := high.ProcessRequest(Request(5), nodes);
    lines := [HandledMessage(o1.kind), HandledMessage(o2.kind), HandledMessage(o3.kind), HandledMessage(o4.kind)];
  }
}
