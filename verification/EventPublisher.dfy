/**
 EventPublisher (src/blueapi/core/event.py).  Callbacks are data: a list of calls they make back into the publisher
 while it is delivering to them, which is what makes publish re-entrant.
 */
module EventPublisher {
  import opened Basics
  import opened WorkerEvents

  type Token = nat

  /** When a callback does something; it is called for every event. */
  datatype Trigger = Always | OnCompletionOf(id: TaskId)

  datatype Act =
    | Subscribe(callback: Callback)
    | Unsubscribe(token: Token)
    | UnsubscribeAll
    | Raise(message: string)
    | Elsewhere(token: Token)       // unsubscribes from another stream, one that does not raise

  datatype Callback = Callback(when: Trigger, script: seq<Act>)

  datatype PublishError = NoSuchSubscription(token: Token) | CallbackError(message: string)

  /** One item of the `_subscriptions` dict. */
  datatype Entry = Entry(token: Token, callback: Callback)

  /** The dict in insertion order, and the next value of the counter. */
  datatype Subs = Subs(entries: seq<Entry>, count: nat)

  // ---------- specification ----------

  /** Where a token is in the dict; the length if it is not there. */
  function Index(entries: seq<Entry>, token: Token): (i: nat)
    ensures i <= |entries| && (i < |entries| ==> entries[i].token == token)
    ensures forall j :: 0 <= j < i ==> entries[j].token != token
  {
    if entries == [] || entries[0].token == token then 0 else 1 + Index(entries[1..], token)
  }

  function Added(s: Subs, callback: Callback): Subs {
    Subs(s.entries + [Entry(s.count, callback)], s.count + 1)
  }

  /** What a call does to the subscriptions, and the exception it raises. */
  function DoAct(s: Subs, act: Act): (Subs, Option<PublishError>) {
    match act
    case Subscribe(callback) => (Added(s, callback), None)
    case Unsubscribe(token) =>
      var i := Index(s.entries, token);
      if i < |s.entries| then (s.(entries := s.entries[..i] + s.entries[i + 1..]), None)
      else (s, Some(NoSuchSubscription(token)))
    case UnsubscribeAll => (s.(entries := []), None)
    case Raise(message) => (s, Some(CallbackError(message)))
    case Elsewhere(_) => (s, None)
  }

  /** A callback runs until it raises. */
  function RunScript(s: Subs, script: seq<Act>): (Subs, Option<PublishError>)
    decreases |script|
  {
    if script == [] then (s, None) else
    var (t, error) := DoAct(s, script[0]);
    if error.Some? then (t, error) else RunScript(t, script[1..])
  }

  predicate Fires(callback: Callback, event: WorkerEvent) {
    callback.when.Always? || (event.IsComplete() && event.Concerns(callback.when.id))
  }

  function Call(s: Subs, callback: Callback, event: WorkerEvent): (Subs, Option<PublishError>) {
    if Fires(callback, event) then RunScript(s, callback.script) else (s, None)
  }

  function AsList(error: Option<PublishError>): seq<PublishError> {
    if error.Some? then [error.value] else []
  }

  /** Calls a fixed list of entries one after the other, whatever each call does to the subscriptions. */
  function CallAll(s: Subs, called: seq<Entry>, event: WorkerEvent): (Subs, seq<PublishError>)
    decreases |called|
  {
    if called == [] then (s, []) else
    var (t, errors) := CallAll(s, called[..|called| - 1], event);
    var (u, error) := Call(t, called[|called| - 1].callback, event);
    (u, errors + AsList(error))
  }

  /** Ascending tokens: dict order is order of subscription, and all tokens come from the counter. */
  ghost predicate Ascending(s: Subs) {
    && (forall i :: 0 <= i < |s.entries| ==> s.entries[i].token < s.count)
    && (forall i, j :: 0 <= i < j < |s.entries| ==> s.entries[i].token < s.entries[j].token)
  }

  // ---------- the class ----------

  class Publisher {
    var entries: seq<Entry>
    var count: nat
    ghost var delivered: seq<(Token, WorkerEvent)>   // history of callback invocations

    ghost function Subscriptions(): Subs
      reads this
    {
      Subs(entries, count)
    }

    constructor ()
      ensures Subscriptions() == Subs([], 0) && delivered == []
    {
      entries, count, delivered := [], 0, [];
    }

    method Subscribe(callback: Callback) returns (token: Token)
      modifies this`entries, this`count
      ensures Subscriptions() == Added(old(Subscriptions()), callback) && token == old(count)
    {
      token := count;
      count := count + 1;
      entries := entries + [Entry(token, callback)];
    }

    method Unsubscribe(token: Token) returns (error: Option<PublishError>)
      modifies this`entries
      ensures (Subscriptions(), error) == DoAct(old(Subscriptions()), Act.Unsubscribe(token))
    {
      var i := Index(entries, token);
      if i < |entries| {
        entries := entries[..i] + entries[i + 1..];
        error := None;
      } else {
        error := Some(NoSuchSubscription(token));
      }
    }

    method UnsubscribeAll()
      modifies this`entries
      ensures Subscriptions() == old(Subscriptions()).(entries := [])
    {
      entries := [];
    }

    /** The body of a callback, calling back into this publisher. */
    method Invoke(callback: Callback, event: WorkerEvent) returns (error: Option<PublishError>)
      modifies this`entries, this`count
      ensures (Subscriptions(), error) == Call(old(Subscriptions()), callback, event)
    {
      error := None;
      if !Fires(callback, event) {
        return;
      }
      var i := 0;
      while i < |callback.script| && error.None?
        invariant 0 <= i <= |callback.script|
        invariant error.None? ==> RunScript(old(Subscriptions()), callback.script)
                                  == RunScript(Subscriptions(), callback.script[i..])
        invariant error.Some? ==> RunScript(old(Subscriptions()), callback.script) == (Subscriptions(), error)
      {
        match callback.script[i] {
          case Subscribe(inner) => var _ := Subscribe(inner);
          case Unsubscribe(token) => error := Unsubscribe(token);
          case UnsubscribeAll => UnsubscribeAll();
          case Raise(message) => error := Some(CallbackError(message));
          case Elsewhere(_) =>
        }
        i := i + 1;
      }
    }

    /** Delivers to a snapshot of the subscriptions and collects what the callbacks raise. */
    method Publish(event: WorkerEvent) returns (errors: seq<PublishError>)
      modifies this
      ensures (Subscriptions(), errors) == CallAll(old(Subscriptions()), old(entries), event)
      ensures delivered == old(delivered) + Deliveries(old(entries), event)
    {
      errors := [];
      var snapshot := entries;
      for i := 0 to |snapshot|
        invariant (Subscriptions(), errors) == CallAll(old(Subscriptions()), snapshot[..i], event)
        invariant delivered == old(delivered) + Deliveries(snapshot[..i], event)
      {
        ghost var next, before := snapshot[..i + 1], errors;
        assert next[..|next| - 1] == snapshot[..i];
        delivered := delivered + [(snapshot[i].token, event)];
        var error := Invoke(snapshot[i].callback, event);
        if error.Some? {
          errors := errors + [error.value];
        }
        assert errors == before + AsList(error);
      }
      assert snapshot[..|snapshot|] == snapshot;
    }
  }

  /** One delivery to each entry, in order. */
  function Deliveries(entries: seq<Entry>, event: WorkerEvent): (r: seq<(Token, WorkerEvent)>)
    ensures |r| == |entries| && forall i :: 0 <= i < |r| ==> r[i] == (entries[i].token, event)
  {
    seq(|entries|, i requires 0 <= i < |entries| => (entries[i].token, event))
  }

  // ---------- tokens ----------

  /** A later state knows an old token only if it still stands for the same callback. */
  ghost predicate KeepsIdentity(s: Subs, t: Subs) {
    && s.count <= t.count
    && forall i :: 0 <= i < |t.entries| && t.entries[i].token < s.count ==> t.entries[i] in s.entries
  }

  lemma RemovalKeeps(s: Subs, k: nat)
    requires Ascending(s) && k < |s.entries|
    ensures var t := s.(entries := s.entries[..k] + s.entries[k + 1..]); Ascending(t) && KeepsIdentity(s, t)
  {
    var t := s.(entries := s.entries[..k] + s.entries[k + 1..]);
    forall i | 0 <= i < |t.entries| ensures t.entries[i] == s.entries[if i < k then i else i + 1] {}
  }

  lemma ActKeeps(s: Subs, act: Act)
    requires Ascending(s)
    ensures Ascending(DoAct(s, act).0) && KeepsIdentity(s, DoAct(s, act).0)
  {
    if act.Unsubscribe? && Index(s.entries, act.token) < |s.entries| {
      RemovalKeeps(s, Index(s.entries, act.token));
    }
  }

  lemma {:induction false} ScriptKeeps(s: Subs, script: seq<Act>)
    requires Ascending(s)
    ensures Ascending(RunScript(s, script).0) && KeepsIdentity(s, RunScript(s, script).0)
    decreases |script|
  {
    if script != [] {
      ActKeeps(s, script[0]);
      ScriptKeeps(DoAct(s, script[0]).0, script[1..]);
    }
  }

  lemma {:induction false} CallsKeep(s: Subs, called: seq<Entry>, event: WorkerEvent)
    requires Ascending(s)
    ensures Ascending(CallAll(s, called, event).0) && KeepsIdentity(s, CallAll(s, called, event).0)
    decreases |called|
  {
    if called != [] {
      CallsKeep(s, called[..|called| - 1], event);
      ScriptKeeps(CallAll(s, called[..|called| - 1], event).0, called[|called| - 1].callback.script);
    }
  }

  /** Everything that can happen to a publisher, from outside or from inside a callback. */
  datatype Operation = Outside(act: Act) | Publishing(event: WorkerEvent)

  function After(s: Subs, ops: seq<Operation>): Subs
    decreases |ops|
  {
    if ops == [] then s else
    var t := After(s, ops[..|ops| - 1]);
    match ops[|ops| - 1]
    case Outside(act) => DoAct(t, act).0
    case Publishing(event) => CallAll(t, t.entries, event).0
  }

  /**
   The token handed out next has never stood for anything before, and whatever happens later, unsubscribe_all
   included, it stands for this callback or for nothing.
   */
  lemma {:induction false} TokensNeverReused(s: Subs, ops: seq<Operation>)
    requires Ascending(s)
    ensures Ascending(After(s, ops)) && KeepsIdentity(s, After(s, ops))
    ensures forall e :: e in s.entries ==> e.token != s.count
    decreases |ops|
  {
    if ops != [] {
      TokensNeverReused(s, ops[..|ops| - 1]);
      var t := After(s, ops[..|ops| - 1]);
      match ops[|ops| - 1]
      case Outside(act) => ActKeeps(t, act);
      case Publishing(event) => CallsKeep(t, t.entries, event);
    }
  }

  lemma SubscribedTokenKeepsMeaning(s: Subs, callback: Callback, ops: seq<Operation>, e: Entry)
    requires Ascending(s) && e in After(Added(s, callback), ops).entries && e.token == s.count
    ensures e.callback == callback
  {
    TokensNeverReused(Added(s, callback), ops);
    assert e in Added(s, callback).entries;
  }

  // ---------- errors ----------

  /** The exception each of the called callbacks raises, in the order of the calls. */
  function Outcomes(s: Subs, called: seq<Entry>, event: WorkerEvent): (r: seq<Option<PublishError>>)
    ensures |r| == |called|
    decreases |called|
  {
    if called == [] then [] else
    Outcomes(s, called[..|called| - 1], event)
    + [Call(CallAll(s, called[..|called| - 1], event).0, called[|called| - 1].callback, event).1]
  }

  function Somes(outcomes: seq<Option<PublishError>>): seq<PublishError> {
    if outcomes == [] then []
    else Somes(outcomes[..|outcomes| - 1]) + AsList(outcomes[|outcomes| - 1])
  }

  lemma {:induction false} SomesEmpty(outcomes: seq<Option<PublishError>>)
    ensures Somes(outcomes) == [] <==> forall i :: 0 <= i < |outcomes| ==> outcomes[i] == None
  {
    if outcomes != [] {
      var front, last := outcomes[..|outcomes| - 1], outcomes[|outcomes| - 1];
      SomesEmpty(front);
      assert forall i | 0 <= i < |front| :: front[i] == outcomes[i];
      if last.None? {
        assert Somes(front) + [] == Somes(front);
      } else {
        assert (Somes(front) + [last.value])[|Somes(front)|] == last.value;
      }
    }
  }

  /** publish raises one exception per failing callback, in subscription order, and raises at all only if one fails. */
  lemma {:induction false} ErrorsAreTheOutcomes(s: Subs, called: seq<Entry>, event: WorkerEvent)
    ensures var (outcomes, errors) := (Outcomes(s, called, event), CallAll(s, called, event).1);
            && errors == Somes(outcomes)
            && (errors == [] <==> forall i :: 0 <= i < |called| ==> outcomes[i] == None)
    decreases |called|
  {
    SomesEmpty(Outcomes(s, called, event));
    if called != [] {
      ErrorsAreTheOutcomes(s, called[..|called| - 1], event);
      var all := Outcomes(s, called, event);
      assert all[..|all| - 1] == Outcomes(s, called[..|called| - 1], event);
    }
  }

  // ---------- which exceptions callbacks raise ----------

  /** What a callback's calls can depend on: which tokens are subscribed, and which one comes next. */
  datatype Tokens = Tokens(known: set<Token>, next: Token)

  ghost function TokensOf(s: Subs): Tokens {
    Tokens(set i | 0 <= i < |s.entries| :: s.entries[i].token, s.count)
  }

  function TokensAfter(k: Tokens, act: Act): Tokens {
    match act
    case Subscribe(_) => Tokens(k.known + {k.next}, k.next + 1)
    case Unsubscribe(token) => k.(known := k.known - {token})
    case UnsubscribeAll => k.(known := {})
    case Raise(_) => k
    case Elsewhere(_) => k
  }

  /** A call fails if it raises, or unsubscribes a token that is not there. */
  function Failure(k: Tokens, act: Act): Option<PublishError> {
    match act
    case Raise(message) => Some(CallbackError(message))
    case Unsubscribe(token) => if token in k.known then None else Some(NoSuchSubscription(token))
    case _ => None
  }

  /** The tokens when the first n calls of a script have been made. */
  function TokensAt(k: Tokens, script: seq<Act>, n: nat): Tokens
    requires n <= |script|
  {
    if n == 0 then k else TokensAfter(TokensAt(k, script, n - 1), script[n - 1])
  }

  ghost predicate FailsAt(k: Tokens, script: seq<Act>, i: nat) {
    i < |script| && Failure(TokensAt(k, script, i), script[i]).Some?
  }

  /** The call is the first of the script to fail. */
  ghost predicate FailsFirst(k: Tokens, script: seq<Act>, i: nat) {
    FailsAt(k, script, i) && forall j | 0 <= j < i :: !FailsAt(k, script, j)
  }

  lemma TokensOfAct(s: Subs, act: Act)
    requires Ascending(s)
    ensures TokensOf(DoAct(s, act).0) == TokensAfter(TokensOf(s), act)
    ensures DoAct(s, act).1 == Failure(TokensOf(s), act)
  {
    if act.Unsubscribe? && Index(s.entries, act.token) < |s.entries| {
      TokensOfRemoval(s, Index(s.entries, act.token));
    } else if act.Subscribe? {
      var t := Added(s, act.callback);
      assert t.entries[|s.entries|].token == s.count;
      assert forall i | 0 <= i < |s.entries| :: t.entries[i] == s.entries[i];
      assert TokensOf(t).known == TokensOf(s).known + {s.count};
    }
  }

  lemma TokensOfRemoval(s: Subs, k: nat)
    requires Ascending(s) && k < |s.entries|
    ensures var t := s.(entries := s.entries[..k] + s.entries[k + 1..]);
            TokensOf(t).known == TokensOf(s).known - {s.entries[k].token}
  {
    var t := s.(entries := s.entries[..k] + s.entries[k + 1..]);
    forall i | 0 <= i < |s.entries| && i != k ensures s.entries[i].token in TokensOf(t).known {
      assert t.entries[if i < k then i else i - 1] == s.entries[i];
    }
    forall i | 0 <= i < |t.entries|
      ensures t.entries[i].token in TokensOf(s).known && t.entries[i].token != s.entries[k].token
    {
      assert t.entries[i] == s.entries[if i < k then i else i + 1];
    }
  }

  lemma {:induction false} TokensShift(k: Tokens, script: seq<Act>, n: nat)
    requires 0 < n <= |script|
    ensures TokensAt(k, script, n) == TokensAt(TokensAfter(k, script[0]), script[1..], n - 1)
  {
    if n > 1 {
      TokensShift(k, script, n - 1);
    }
  }

  /** A script runs up to its first failing call, raises what that raises, and raises nothing if no call fails. */
  lemma {:induction false} RaisesFirstFailure(s: Subs, script: seq<Act>, i: nat)
    requires Ascending(s) && i <= |script|
    requires forall j | 0 <= j < i :: !FailsAt(TokensOf(s), script, j)
    requires i < |script| ==> FailsAt(TokensOf(s), script, i)
    ensures RunScript(s, script).1 ==
            if i < |script| then Failure(TokensAt(TokensOf(s), script, i), script[i]) else None
    ensures TokensOf(RunScript(s, script).0) == TokensAt(TokensOf(s), script, i)
    decreases |script|
  {
    if script != [] {
      var t := DoAct(s, script[0]).0;
      TokensOfAct(s, script[0]);
      ActKeeps(s, script[0]);
      if i > 0 {
        assert !FailsAt(TokensOf(s), script, 0);
        forall j | 0 < j <= |script|
          ensures TokensAt(TokensOf(s), script, j) == TokensAt(TokensOf(t), script[1..], j - 1) {
          TokensShift(TokensOf(s), script, j);
        }
        forall j | 0 <= j < i - 1 ensures !FailsAt(TokensOf(t), script[1..], j) {
          assert !FailsAt(TokensOf(s), script, j + 1);
        }
        RaisesFirstFailure(t, script[1..], i - 1);
      }
    }
  }

  /** The first failing call of a script, or its length. */
  ghost function Stops(k: Tokens, script: seq<Act>, from: nat): (i: nat)
    requires from <= |script|
    ensures from <= i <= |script|
    ensures forall j | from <= j < i :: !FailsAt(k, script, j)
    ensures i < |script| ==> FailsAt(k, script, i)
    decreases |script| - from
  {
    if from == |script| || FailsAt(k, script, from) then from else Stops(k, script, from + 1)
  }

  /** The tokens when a callback has been called. */
  ghost function TokensAfterCall(k: Tokens, callback: Callback, event: WorkerEvent): Tokens {
    if Fires(callback, event) then TokensAt(k, callback.script, Stops(k, callback.script, 0)) else k
  }

  ghost function ErrorOfCall(k: Tokens, callback: Callback, event: WorkerEvent): Option<PublishError> {
    var i := Stops(k, callback.script, 0);
    if Fires(callback, event) && i < |callback.script| then Failure(TokensAt(k, callback.script, i), callback.script[i])
    else None
  }

  /** The tokens when the first n callbacks have been called, one after the other. */
  ghost function TokensBefore(k: Tokens, called: seq<Entry>, n: nat, event: WorkerEvent): Tokens
    requires n <= |called|
  {
    if n == 0 then k else TokensAfterCall(TokensBefore(k, called, n - 1, event), called[n - 1].callback, event)
  }

  lemma CallRaises(s: Subs, callback: Callback, event: WorkerEvent)
    requires Ascending(s)
    ensures Call(s, callback, event).1 == ErrorOfCall(TokensOf(s), callback, event)
    ensures TokensOf(Call(s, callback, event).0) == TokensAfterCall(TokensOf(s), callback, event)
  {
    RaisesFirstFailure(s, callback.script, Stops(TokensOf(s), callback.script, 0));
  }

  lemma {:induction false} TokensPrefix(k: Tokens, called: seq<Entry>, m: nat, n: nat, event: WorkerEvent)
    requires n <= m <= |called|
    ensures TokensBefore(k, called[..m], n, event) == TokensBefore(k, called, n, event)
  {
    if n > 0 {
      TokensPrefix(k, called, m, n - 1, event);
    }
  }

  /** What the n-th callback called raises. */
  ghost function ErrorAt(k: Tokens, called: seq<Entry>, n: nat, event: WorkerEvent): Option<PublishError>
    requires n < |called|
  {
    ErrorOfCall(TokensBefore(k, called, n, event), called[n].callback, event)
  }

  lemma {:induction false} TokensOfCalls(s: Subs, called: seq<Entry>, event: WorkerEvent)
    requires Ascending(s)
    ensures TokensOf(CallAll(s, called, event).0) == TokensBefore(TokensOf(s), called, |called|, event)
    decreases |called|
  {
    if called != [] {
      var m := |called| - 1;
      TokensOfCalls(s, called[..m], event);
      CallsKeep(s, called[..m], event);
      CallRaises(CallAll(s, called[..m], event).0, called[m].callback, event);
      TokensPrefix(TokensOf(s), called, m, m, event);
    }
  }

  lemma {:induction false} OutcomeAt(s: Subs, called: seq<Entry>, n: nat, event: WorkerEvent)
    requires Ascending(s) && n < |called|
    ensures Outcomes(s, called, event)[n] == ErrorAt(TokensOf(s), called, n, event)
    decreases |called|
  {
    var m := |called| - 1;
    if n < m {
      OutcomeAt(s, called[..m], n, event);
      TokensPrefix(TokensOf(s), called, m, n, event);
    } else {
      TokensOfCalls(s, called[..m], event);
      CallsKeep(s, called[..m], event);
      CallRaises(CallAll(s, called[..m], event).0, called[m].callback, event);
      TokensPrefix(TokensOf(s), called, m, m, event);
    }
  }

  lemma FirstFailureStops(k: Tokens, script: seq<Act>, i: nat)
    requires FailsFirst(k, script, i)
    ensures Stops(k, script, 0) == i
  {
  }

  /** A callback raises exactly if it fires and comes to a failing call; then it raises what its first one does. */
  lemma ErrorOfCallExactly(k: Tokens, callback: Callback, event: WorkerEvent)
    ensures ErrorOfCall(k, callback, event).Some? <==>
            Fires(callback, event) && exists i: nat :: FailsFirst(k, callback.script, i)
    ensures forall i: nat :: Fires(callback, event) && FailsFirst(k, callback.script, i) ==>
              ErrorOfCall(k, callback, event) == Failure(TokensAt(k, callback.script, i), callback.script[i])
  {
    var stop := Stops(k, callback.script, 0);
    if stop < |callback.script| {
      assert FailsFirst(k, callback.script, stop);
    }
    forall i: nat | FailsFirst(k, callback.script, i) ensures i == stop {
      FirstFailureStops(k, callback.script, i);
    }
  }

  /**
   * publish raises exactly if one of the callbacks it calls fires and comes to a failing call, as the scripts say; and
   * then it raises what the first failing call of each of them raises, in subscription order.
   */
  lemma PublishRaisesExactly(s: Subs, event: WorkerEvent)
    requires Ascending(s)
    ensures CallAll(s, s.entries, event).1 == Somes(Outcomes(s, s.entries, event))
    ensures forall n :: 0 <= n < |s.entries| ==>
              Outcomes(s, s.entries, event)[n] == ErrorAt(TokensOf(s), s.entries, n, event)
    ensures CallAll(s, s.entries, event).1 != [] <==>
            exists n :: 0 <= n < |s.entries| && ErrorAt(TokensOf(s), s.entries, n, event).Some?
  {
    ErrorsAreTheOutcomes(s, s.entries, event);
    forall n | 0 <= n < |s.entries|
      ensures Outcomes(s, s.entries, event)[n] == ErrorAt(TokensOf(s), s.entries, n, event)
    {
      OutcomeAt(s, s.entries, n, event);
    }
  }

  // ---------- effects on the other stream ----------

  /** The tokens of the other stream a callback unsubscribes before it raises or ends. */
  function ScriptEffects(s: Subs, script: seq<Act>): set<Token>
    decreases |script|
  {
    if script == [] then {} else
    var (t, error) := DoAct(s, script[0]);
    (if script[0].Elsewhere? then {script[0].token} else {}) +
    (if error.Some? then {} else ScriptEffects(t, script[1..]))
  }

  function CallsEffects(s: Subs, called: seq<Entry>, event: WorkerEvent): set<Token>
    decreases |called|
  {
    if called == [] then {} else
    var t := CallAll(s, called[..|called| - 1], event).0;
    var last := called[|called| - 1].callback;
    CallsEffects(s, called[..|called| - 1], event) + (if Fires(last, event) then ScriptEffects(t, last.script) else {})
  }
}
