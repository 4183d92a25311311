/**
 * The block/admit/store/exit protocol of the three middlewares in
 * middleware/sentinel.go, over gin's per-request key/value bag.
 *
 * Sentinel's admission decision is an oracle: `admit(k, resource)` is the verdict
 * of the k-th api.Entry call of the request. An entry is identified by the number
 * of its Entry call; every entry.Exit() call is logged, so a second Exit on one
 * entry and an entry never exited are both visible.
 */
module EntryProtocol {
  import opened ResourceNaming

  /** The one context key every middleware stores its entry under. */
  const EntryKey := "sentinelEntry"

  const StatusTooManyRequests := 429
  /** Block message of SentinelMiddleware and ParamBasedSentinelMiddleware ("too many requests, try later"). */
  const FrequentMessage := "请求过于频繁，请稍后再试"
  /** Block message of SentinelMiddlewareWithFallback without a fallback ("system busy, try later"). */
  const BusyMessage := "系统繁忙，请稍后再试"

  /** A value in the context bag: a *base.SentinelEntry, or a value of any other type. */
  datatype Value = SentinelEntry(id: nat) | OtherValue

  datatype Reply =
    | TooManyRequests(code: int, message: string)  // c.JSON(429, {"code": 429, "message": ...})
    | FallbackReply                                // what the fallback handler writes
    | HandlerReply                                 // the route handler's own response

  /** A handler of the chain gin runs for one request. */
  datatype Handler =
    | Plain                            // SentinelMiddleware()
    | WithFallback(hasFallback: bool)  // SentinelMiddlewareWithFallback(fallback), hasFallback == (fallback != nil)
    | ParamBased(paramName: string)    // ParamBasedSentinelMiddleware(paramName)
    | Endpoint                         // a route handler: writes its reply, calls neither Next nor Abort

  /**
   * Which entry an admitted middleware exits once the rest of the chain has run:
   * the one then stored under EntryKey (the code as written), or the one it
   * entered itself (the evident intent).
   */
  datatype ExitPolicy = ExitStored | ExitOwn

  type Oracle = (nat, string) -> bool

  /** Everything the protocol touches: the context bag, abort flag and replies, and Sentinel's call log. */
  datatype Trace = Trace(
    keys: map<string, Value>,
    aborted: bool,
    replies: seq<Reply>,
    entered: seq<string>,  // resource of each api.Entry call, in call order
    exited: seq<nat>)      // entry of each Exit call, in call order

  function ResourceOf(h: Handler, req: Request): string
  {
    match h
    case ParamBased(paramName) => ParamResourceName(req, paramName)
    case _ => ResourceName(req)
  }

  function BlockedReply(h: Handler): Reply
  {
    match h
    case WithFallback(hasFallback) =>
      if hasFallback then FallbackReply else TooManyRequests(StatusTooManyRequests, BusyMessage)
    case _ => TooManyRequests(StatusTooManyRequests, FrequentMessage)
  }

  /** The code after c.Next() as written: exit the *base.SentinelEntry stored under EntryKey, if any. */
  function ExitWhatIsStored(t: Trace): Trace
  {
    if EntryKey in t.keys && t.keys[EntryKey].SentinelEntry?
    then t.(exited := t.exited + [t.keys[EntryKey].id])
    else t
  }

  /** The code after c.Next(): exit per the policy; `own` is the middleware's own entry. */
  function Release(t: Trace, policy: ExitPolicy, own: nat): Trace
  {
    match policy
    case ExitOwn => t.(exited := t.exited + [own])
    case ExitStored => ExitWhatIsStored(t)
  }

  /** c.Next() from position i: the handlers chain[i..] run in order. */
  function Run(chain: seq<Handler>, req: Request, admit: Oracle, policy: ExitPolicy, i: nat, t: Trace): Trace
    requires i <= |chain|
    decreases |chain| - i, 1
  {
    if i == |chain| then t
    else if chain[i].Endpoint? then Run(chain, req, admit, policy, i + 1, t.(replies := t.replies + [HandlerReply]))
    else Guard(chain, req, admit, policy, i, t)
  }

  /** The middleware at position i: Entry; on block reply and abort; on admit store, Next, exit. */
  function Guard(chain: seq<Handler>, req: Request, admit: Oracle, policy: ExitPolicy, i: nat, t: Trace): Trace
    requires i < |chain| && !chain[i].Endpoint?
    decreases |chain| - i, 0
  {
    var resource := ResourceOf(chain[i], req);
    var entry := |t.entered|;
    var t1 := t.(entered := t.entered + [resource]);
    if !admit(entry, resource) then
      t1.(replies := t1.replies + [BlockedReply(chain[i])], aborted := true)
    else
      Release(Run(chain, req, admit, policy, i + 1, t1.(keys := t1.keys[EntryKey := SentinelEntry(entry)])), policy, entry)
  }

  /** Both non-parameter middlewares enter the same resource for the same request. */
  lemma SameResourceForBothLayers(req: Request, hasFallback: bool)
    ensures ResourceOf(Plain, req) == ResourceOf(WithFallback(hasFallback), req) == ResourceName(req)
  {
  }

  /** Blocked path: the reply, the abort, and no entry stored or exited. */
  lemma BlockedGuard(chain: seq<Handler>, req: Request, admit: Oracle, policy: ExitPolicy, i: nat, t: Trace)
    requires i < |chain| && !chain[i].Endpoint?
    requires !admit(|t.entered|, ResourceOf(chain[i], req))
    ensures var r := Guard(chain, req, admit, policy, i, t);
      && r.aborted
      && r.keys == t.keys
      && r.exited == t.exited
      && r.entered == t.entered + [ResourceOf(chain[i], req)]
      && r.replies == t.replies + [
           match chain[i]
           case WithFallback(true) => FallbackReply
           case WithFallback(false) => TooManyRequests(429, BusyMessage)
           case _ => TooManyRequests(429, FrequentMessage)]
  {
  }

  /** A chain tail of route handlers only writes their replies. */
  lemma {:induction false} EndpointsOnly(chain: seq<Handler>, req: Request, admit: Oracle, policy: ExitPolicy, i: nat, t: Trace)
    requires i <= |chain|
    requires forall j | i <= j < |chain| :: chain[j].Endpoint?
    ensures Run(chain, req, admit, policy, i, t) == t.(replies := t.replies + seq(|chain| - i, _ => HandlerReply))
    decreases |chain| - i
  {
    if i < |chain| {
      var t' := t.(replies := t.replies + [HandlerReply]);
      EndpointsOnly(chain, req, admit, policy, i + 1, t');
      assert t'.replies + seq(|chain| - (i + 1), _ => HandlerReply) == t.replies + seq(|chain| - i, _ => HandlerReply);
    }
  }

  /** Admitted path, no middleware behind: the entry is stored, then exited exactly once, under either policy. */
  lemma AdmittedGuardAlone(chain: seq<Handler>, req: Request, admit: Oracle, policy: ExitPolicy, i: nat, t: Trace)
    requires i < |chain| && !chain[i].Endpoint?
    requires forall j | i < j < |chain| :: chain[j].Endpoint?
    requires admit(|t.entered|, ResourceOf(chain[i], req))
    ensures var r := Guard(chain, req, admit, policy, i, t);
      && r.entered == t.entered + [ResourceOf(chain[i], req)]
      && r.keys == t.keys[EntryKey := SentinelEntry(|t.entered|)]
      && r.exited == t.exited + [|t.entered|]
      && r.replies == t.replies + seq(|chain| - i - 1, _ => HandlerReply)
      && r.aborted == t.aborted
  {
    var k := |t.entered|;
    var t1 := t.(entered := t.entered + [ResourceOf(chain[i], req)], keys := t.keys[EntryKey := SentinelEntry(k)]);
    EndpointsOnly(chain, req, admit, policy, i + 1, t1);
  }

  /** Sentinel only appends to its call log. */
  ghost predicate Extends(t: Trace, r: Trace)
  {
    && |t.entered| <= |r.entered| && r.entered[..|t.entered|] == t.entered
    && |t.exited| <= |r.exited| && r.exited[..|t.exited|] == t.exited
  }

  /** The entries admitted among the calls `calls`, the first of which is call number `first`. */
  ghost function Admitted(admit: Oracle, calls: seq<string>, first: nat): multiset<nat>
    decreases |calls|
  {
    if calls == [] then multiset{}
    else (if admit(first, calls[0]) then multiset{first} else multiset{}) + Admitted(admit, calls[1..], first + 1)
  }

  /** The trace's new calls all came from the new entries, and each admitted one was exited exactly once. */
  ghost predicate ExitsEachAdmittedOnce(admit: Oracle, t: Trace, r: Trace)
  {
    Extends(t, r) && multiset(r.exited[|t.exited|..]) == Admitted(admit, r.entered[|t.entered|..], |t.entered|)
  }

  /** One Entry call on `resource` followed by more calls: its verdict, then the rest's. */
  lemma AdmittedAfterEntry(admit: Oracle, t: Trace, resource: string, u: Trace)
    requires Extends(t.(entered := t.entered + [resource]), u)
    ensures Extends(t.(exited := u.exited), u)
    ensures Admitted(admit, u.entered[|t.entered|..], |t.entered|) ==
      (if admit(|t.entered|, resource) then multiset{|t.entered|} else multiset{})
      + Admitted(admit, u.entered[|t.entered| + 1..], |t.entered| + 1)
  {
    var k := |t.entered|;
    assert u.entered[..k] == u.entered[..k + 1][..k];
    assert u.entered[k] == u.entered[..k + 1][k] == resource;
    assert u.entered[k..][1..] == u.entered[k + 1..];
  }

  /** One more Exit call extends the log by exactly that entry. */
  lemma ExitAppends(t: Trace, u: Trace, r: Trace, entry: nat)
    requires Extends(t, u) && r.entered == u.entered && r.exited == u.exited + [entry]
    ensures Extends(t, r)
    ensures r.exited[|t.exited|..] == u.exited[|t.exited|..] + [entry]
  {
    assert r.exited[..|t.exited|] == u.exited[..|t.exited|];
  }

  /**
   * The corrected protocol: when each middleware exits the entry it entered, every
   * admitted entry of the request is exited exactly once, on every chain.
   */
  lemma {:induction false} OwnExitsEachAdmittedOnce(chain: seq<Handler>, req: Request, admit: Oracle, i: nat, t: Trace)
    requires i <= |chain|
    ensures ExitsEachAdmittedOnce(admit, t, Run(chain, req, admit, ExitOwn, i, t))
    decreases |chain| - i, 1
  {
    if i == |chain| {
      assert t.entered[|t.entered|..] == [];
    } else if chain[i].Endpoint? {
      OwnExitsEachAdmittedOnce(chain, req, admit, i + 1, t.(replies := t.replies + [HandlerReply]));
    } else {
      OwnGuardExitsEachAdmittedOnce(chain, req, admit, i, t);
    }
  }

  lemma {:induction false} OwnGuardExitsEachAdmittedOnce(chain: seq<Handler>, req: Request, admit: Oracle, i: nat, t: Trace)
    requires i < |chain| && !chain[i].Endpoint?
    ensures ExitsEachAdmittedOnce(admit, t, Guard(chain, req, admit, ExitOwn, i, t))
    decreases |chain| - i, 0
  {
    var resource := ResourceOf(chain[i], req);
    var k := |t.entered|;
    var r := Guard(chain, req, admit, ExitOwn, i, t);
    if !admit(k, resource) {
      AdmittedAfterEntry(admit, t, resource, r);
      assert r.entered[k + 1..] == [];
      assert r.exited[|t.exited|..] == [];
    } else {
      var t1 := t.(entered := t.entered + [resource], keys := t.keys[EntryKey := SentinelEntry(k)]);
      var u := Run(chain, req, admit, ExitOwn, i + 1, t1);
      OwnExitsEachAdmittedOnce(chain, req, admit, i + 1, t1);
      assert r.entered == u.entered && r.exited == u.exited + [k];
      AdmittedAfterEntry(admit, t, resource, u);
      ExitAppends(t, u, r, k);
    }
  }

  /** Some entry is stored under the key. */
  ghost predicate HoldsEntry(t: Trace)
  {
    EntryKey in t.keys && t.keys[EntryKey].SentinelEntry?
  }

  /** Once an entry is stored under the key, later handlers only ever replace it by another entry. */
  lemma {:induction false} RunKeepsEntry(chain: seq<Handler>, req: Request, admit: Oracle, policy: ExitPolicy, i: nat, t: Trace)
    requires i <= |chain| && HoldsEntry(t)
    ensures HoldsEntry(Run(chain, req, admit, policy, i, t))
    decreases |chain| - i, 1
  {
    if i < |chain| {
      if chain[i].Endpoint? {
        RunKeepsEntry(chain, req, admit, policy, i + 1, t.(replies := t.replies + [HandlerReply]));
      } else {
        GuardKeepsEntry(chain, req, admit, policy, i, t);
      }
    }
  }

  lemma {:induction false} GuardKeepsEntry(chain: seq<Handler>, req: Request, admit: Oracle, policy: ExitPolicy, i: nat, t: Trace)
    requires i < |chain| && !chain[i].Endpoint? && HoldsEntry(t)
    ensures HoldsEntry(Guard(chain, req, admit, policy, i, t))
    decreases |chain| - i, 0
  {
    var resource := ResourceOf(chain[i], req);
    var k := |t.entered|;
    if admit(k, resource) {
      var t1 := t.(entered := t.entered + [resource], keys := t.keys[EntryKey := SentinelEntry(k)]);
      RunKeepsEntry(chain, req, admit, policy, i + 1, t1);
    }
  }

  /** The trace's new exit calls are as many as its admitted entries (but not necessarily the same entries). */
  ghost predicate ExitCountMatchesAdmitted(admit: Oracle, t: Trace, r: Trace)
  {
    Extends(t, r) && |r.exited| - |t.exited| == |Admitted(admit, r.entered[|t.entered|..], |t.entered|)|
  }

  /**
   * As written, every admitted middleware calls Exit exactly once: after Next the
   * key always holds an entry, its own or a later layer's.
   */
  lemma {:induction false} StoredExitCountMatchesAdmitted(chain: seq<Handler>, req: Request, admit: Oracle, i: nat, t: Trace)
    requires i <= |chain|
    ensures ExitCountMatchesAdmitted(admit, t, Run(chain, req, admit, ExitStored, i, t))
    decreases |chain| - i, 1
  {
    if i == |chain| {
      assert t.entered[|t.entered|..] == [];
    } else if chain[i].Endpoint? {
      StoredExitCountMatchesAdmitted(chain, req, admit, i + 1, t.(replies := t.replies + [HandlerReply]));
    } else {
      StoredGuardExitCountMatchesAdmitted(chain, req, admit, i, t);
    }
  }

  lemma {:induction false} StoredGuardExitCountMatchesAdmitted(chain: seq<Handler>, req: Request, admit: Oracle, i: nat, t: Trace)
    requires i < |chain| && !chain[i].Endpoint?
    ensures ExitCountMatchesAdmitted(admit, t, Guard(chain, req, admit, ExitStored, i, t))
    decreases |chain| - i, 0
  {
    var resource := ResourceOf(chain[i], req);
    var k := |t.entered|;
    var r := Guard(chain, req, admit, ExitStored, i, t);
    if !admit(k, resource) {
      AdmittedAfterEntry(admit, t, resource, r);
      assert r.entered[k + 1..] == [];
    } else {
      var t1 := t.(entered := t.entered + [resource], keys := t.keys[EntryKey := SentinelEntry(k)]);
      var u := Run(chain, req, admit, ExitStored, i + 1, t1);
      StoredExitCountMatchesAdmitted(chain, req, admit, i + 1, t1);
      RunKeepsEntry(chain, req, admit, ExitStored, i + 1, t1);
      var stored := u.keys[EntryKey].id;
      assert r.entered == u.entered && r.exited == u.exited + [stored];
      AdmittedAfterEntry(admit, t, resource, u);
      ExitAppends(t, u, r, stored);
    }
  }

  /** api.Entry and entry.Exit: the admission oracle and Sentinel's log of calls. */
  class Sentinel {
    const admit: Oracle
    var entered: seq<string>
    var exited: seq<nat>

    constructor (admit: Oracle)
      ensures this.admit == admit && entered == [] && exited == []
    {
      this.admit := admit;
      entered, exited := [], [];
    }

    /** api.Entry(resource): a new entry, and whether the call was blocked. */
    method Entry(resource: string) returns (entry: nat, blocked: bool)
      modifies this
      ensures entry == |old(entered)| && blocked == !admit(entry, resource)
      ensures entered == old(entered) + [resource] && exited == old(exited)
    {
      entry := |entered|;
      blocked := !admit(entry, resource);
      entered := entered + [resource];
    }

    /** entry.Exit() */
    method Exit(entry: nat)
      modifies this
      ensures exited == old(exited) + [entry] && entered == old(entered)
    {
      exited := exited + [entry];
    }
  }

  /** The gin.Context of one request: its handler chain, key/value bag, abort flag and replies. */
  class Context {
    const handlers: seq<Handler>
    const request: Request
    var keys: map<string, Value>
    var aborted: bool
    var replies: seq<Reply>

    constructor (handlers: seq<Handler>, request: Request)
      ensures this.handlers == handlers && this.request == request
      ensures keys == map[] && !aborted && replies == []
    {
      this.handlers, this.request := handlers, request;
      keys, aborted, replies := map[], false, [];
    }

    ghost function Snapshot(s: Sentinel): Trace
      reads this, s
    {
      Trace(keys, aborted, replies, s.entered, s.exited)
    }

    /** c.Set(key, value) */
    method Set(key: string, value: Value)
      modifies this`keys
      ensures keys == old(keys)[key := value]
    {
      keys := keys[key := value];
    }

    /** c.Get(key): the stored value and whether there is one. */
    method Get(key: string) returns (value: Value, found: bool)
      ensures found <==> key in keys
      ensures found ==> value == keys[key]
    {
      found := key in keys;
      value := if found then keys[key] else OtherValue;
    }

    /** c.JSON(...) */
    method Json(reply: Reply)
      modifies this`replies
      ensures replies == old(replies) + [reply]
    {
      replies := replies + [reply];
    }

    /** c.Abort() */
    method Abort()
      modifies this`aborted
      ensures aborted
    {
      aborted := true;
    }

    /** c.Next() as called by the handler at position i - 1. */
    method Next(s: Sentinel, i: nat)
      requires i <= |handlers|
      modifies this, s
      ensures Snapshot(s) == Run(handlers, request, s.admit, ExitStored, i, old(Snapshot(s)))
      decreases |handlers| - i, 1
    {
      if i < |handlers| {
        match handlers[i]
        case Plain => SentinelMiddleware(s, i);
        case WithFallback(_) => SentinelMiddlewareWithFallback(s, i);
        case ParamBased(_) => ParamBasedSentinelMiddleware(s, i);
        case Endpoint =>
          Json(HandlerReply);
          Next(s, i + 1);
      }
    }

    /** Exits whatever *base.SentinelEntry is stored under EntryKey. */
    method ExitStoredEntry(s: Sentinel)
      modifies s
      ensures Snapshot(s) == ExitWhatIsStored(old(Snapshot(s)))
    {
      var entryVal, found := Get(EntryKey);
      if found {
        if entryVal.SentinelEntry? {
          s.Exit(entryVal.id);
        }
      }
    }

    /** The handler SentinelMiddleware() returns, run as the chain's i-th handler. */
    method SentinelMiddleware(s: Sentinel, i: nat)
      requires i < |handlers| && handlers[i] == Plain
      modifies this, s
      ensures Snapshot(s) == Guard(handlers, request, s.admit, ExitStored, i, old(Snapshot(s)))
      decreases |handlers| - i, 0
    {
      var resource := ResourceName(request);
      var entry, blocked := s.Entry(resource);
      if blocked {
        Json(TooManyRequests(StatusTooManyRequests, FrequentMessage));
        Abort();
        return;
      }
      Set(EntryKey, SentinelEntry(entry));
      Next(s, i + 1);
      ExitStoredEntry(s);
    }

    /** The handler SentinelMiddlewareWithFallback(fallback) returns; the deferred exit runs after Next. */
    method SentinelMiddlewareWithFallback(s: Sentinel, i: nat)
      requires i < |handlers| && handlers[i].WithFallback?
      modifies this, s
      ensures Snapshot(s) == Guard(handlers, request, s.admit, ExitStored, i, old(Snapshot(s)))
      decreases |handlers| - i, 0
    {
      var resource := ResourceName(request);
      var entry, blocked := s.Entry(resource);
      if blocked {
        if handlers[i].hasFallback {
          Json(FallbackReply);
        } else {
          Json(TooManyRequests(StatusTooManyRequests, BusyMessage));
        }
        Abort();
        return;
      }
      Set(EntryKey, SentinelEntry(entry));
      Next(s, i + 1);
      ExitStoredEntry(s);
    }

    /** The handler ParamBasedSentinelMiddleware(paramName) returns. */
    method ParamBasedSentinelMiddleware(s: Sentinel, i: nat)
      requires i < |handlers| && handlers[i].ParamBased?
      modifies this, s
      ensures Snapshot(s) == Guard(handlers, request, s.admit, ExitStored, i, old(Snapshot(s)))
      decreases |handlers| - i, 0
    {
      var resource := ParamResourceName(request, handlers[i].paramName);
      var entry, blocked := s.Entry(resource);
      if blocked {
        Json(TooManyRequests(StatusTooManyRequests, FrequentMessage));
        Abort();
        return;
      }
      Set(EntryKey, SentinelEntry(entry));
      Next(s, i + 1);
      ExitStoredEntry(s);
    }
  }
}
