/**
 * The chain gin runs for POST /orders as the server and the benchmark server wire
 * it: the global SentinelMiddleware, then the route's
 * SentinelMiddlewareWithFallback(orderHandler.FallbackHandler), then CreateOrder.
 * gin.Default() puts its Logger and Recovery middlewares in front; they only call
 * Next and never touch the key bag or Sentinel, so they are not part of OrderChain.
 * Recovery is what lets a handler panic end the request normally, the one case
 * where WithFallback's deferred exit and the other middlewares' inline exit differ;
 * panics are not modelled.
 */
module OrderRoute {
  import opened ResourceNaming
  import opened EntryProtocol
  import FlowConfig

  const OrderChain: seq<Handler> := [Plain, WithFallback(true), Endpoint]

  /** Both layers enter one resource, and it is the one the default rule governs. */
  lemma OrderLayersShareDefaultRule(req: Request)
    requires req.httpMethod == "POST" && req.fullPath == "/orders"
    ensures ResourceOf(OrderChain[0], req) == ResourceOf(OrderChain[1], req) == FlowConfig.DefaultRules()[0].resource
  {
  }

  /** The outer layer is blocked: a 429 reply, abort, one Entry call, no entry stored or exited. */
  lemma OuterBlocked(req: Request, admit: Oracle, t: Trace)
    requires !admit(|t.entered|, ResourceName(req))
    ensures Run(OrderChain, req, admit, ExitStored, 0, t) ==
      t.(entered := t.entered + [ResourceName(req)],
         replies := t.replies + [TooManyRequests(429, FrequentMessage)],
         aborted := true)
  {
  }

  /**
   * The inner layer is blocked: the fallback replies, CreateOrder does not run,
   * and the outer layer exits its own entry, since nothing overwrote it.
   */
  lemma InnerBlocked(req: Request, admit: Oracle, t: Trace)
    requires admit(|t.entered|, ResourceName(req)) && !admit(|t.entered| + 1, ResourceName(req))
    ensures var r := Run(OrderChain, req, admit, ExitStored, 0, t);
      && r.entered == t.entered + [ResourceName(req), ResourceName(req)]
      && r.exited == t.exited + [|t.entered|]
      && r.replies == t.replies + [FallbackReply]
      && r.aborted
      && r.keys == t.keys[EntryKey := SentinelEntry(|t.entered|)]
  {
    var n, k := ResourceName(req), |t.entered|;
    var t1 := t.(entered := t.entered + [n], keys := t.keys[EntryKey := SentinelEntry(k)]);
    var u := Run(OrderChain, req, admit, ExitStored, 1, t1);
    assert u == t1.(entered := t1.entered + [n], replies := t1.replies + [FallbackReply], aborted := true);
  }

  /**
   * Both layers admit: the inner c.Set overwrites the outer entry, so both exits hit
   * the inner entry and the outer entry is never exited.
   */
  lemma BothAdmitted(req: Request, admit: Oracle, t: Trace)
    requires admit(|t.entered|, ResourceName(req)) && admit(|t.entered| + 1, ResourceName(req))
    ensures var r := Run(OrderChain, req, admit, ExitStored, 0, t);
      && r.entered == t.entered + [ResourceName(req), ResourceName(req)]
      && r.exited == t.exited + [|t.entered| + 1, |t.entered| + 1]
      && |t.entered| !in r.exited[|t.exited|..]
      && r.replies == t.replies + [HandlerReply]
      && r.aborted == t.aborted
      && r.keys == t.keys[EntryKey := SentinelEntry(|t.entered| + 1)]
  {
    var n, k := ResourceName(req), |t.entered|;
    var t1 := t.(entered := t.entered + [n], keys := t.keys[EntryKey := SentinelEntry(k)]);
    var t2 := t1.(entered := t1.entered + [n], keys := t1.keys[EntryKey := SentinelEntry(k + 1)]);
    assert Run(OrderChain, req, admit, ExitStored, 2, t2) == t2.(replies := t2.replies + [HandlerReply]);
    var u := Run(OrderChain, req, admit, ExitStored, 1, t1);
    assert u == t2.(replies := t2.replies + [HandlerReply], exited := t2.exited + [k + 1]);
    assert t1.keys[EntryKey := SentinelEntry(k + 1)] == t.keys[EntryKey := SentinelEntry(k + 1)];
  }

  /** The admitted-only-once promise fails as written: two admissions, but the exits are not those two entries. */
  lemma OuterEntryLeaks(req: Request, admit: Oracle, t: Trace)
    requires admit(|t.entered|, ResourceName(req)) && admit(|t.entered| + 1, ResourceName(req))
    ensures var r := Run(OrderChain, req, admit, ExitStored, 0, t);
      && ExitCountMatchesAdmitted(admit, t, r)
      && !ExitsEachAdmittedOnce(admit, t, r)
  {
    var r := Run(OrderChain, req, admit, ExitStored, 0, t);
    var k := |t.entered|;
    BothAdmitted(req, admit, t);
    StoredExitCountMatchesAdmitted(OrderChain, req, admit, 0, t);
    assert r.exited[|t.exited|..] == [k + 1, k + 1];
    assert k !in multiset(r.exited[|t.exited|..]);
    var calls := r.entered[k..];
    assert calls == [ResourceName(req), ResourceName(req)];
    assert k in Admitted(admit, calls, k);
  }

  /** With each layer exiting its own entry, the same request exits the inner entry and then the outer one. */
  lemma BothAdmittedOwnExits(req: Request, admit: Oracle, t: Trace)
    requires admit(|t.entered|, ResourceName(req)) && admit(|t.entered| + 1, ResourceName(req))
    ensures Run(OrderChain, req, admit, ExitOwn, 0, t).exited == t.exited + [|t.entered| + 1, |t.entered|]
  {
    var n, k := ResourceName(req), |t.entered|;
    var t1 := t.(entered := t.entered + [n], keys := t.keys[EntryKey := SentinelEntry(k)]);
    var t2 := t1.(entered := t1.entered + [n], keys := t1.keys[EntryKey := SentinelEntry(k + 1)]);
    assert Run(OrderChain, req, admit, ExitOwn, 2, t2) == t2.(replies := t2.replies + [HandlerReply]);
    assert Run(OrderChain, req, admit, ExitOwn, 1, t1).exited == t.exited + [k + 1];
  }
}
