// The ask-pattern interactor: an intermediate actor that forwards one request
// to a target actor and settles a deferred result with the correlated reply.
// The actor context (tell, stop), the deferred (resolve, reject) and the
// timeout supervisor (start, stop) are recorded as output effects.

module Interactions {
  import opened Messages
  import opened JavaObjects

  /** The class of the error the timer sends when the response is late. */
  const TIMEOUT_EXCEPTION := "cloud.bangover.async.timer.TimeoutException"

  /** The TimeoutException the timer sends to the interactor itself. */
  function TimeoutError(timeout: nat): (e: Obj)
    ensures IsInstance(e, THROWABLE) && IsInstance(e, TIMEOUT_EXCEPTION)
  {
    Obj({TIMEOUT_EXCEPTION, THROWABLE}, timeout)
  }

  datatype Stage = RequestWaiting | ResponseWaiting

  /** What the deferred is rejected with. */
  datatype Failure =
    | Received(error: Obj)
    | WrongRequestType(expectedType: string, body: Obj)
    | WrongResponseType(expectedType: string, body: Obj)

  datatype Effect =
    | Tell(message: Message<Obj>)
    | Stop(address: ActorAddress)
    | StartSupervision
    | StopSupervision
    | Resolve(response: Obj)
    | Reject(failure: Failure)
  {
    predicate Settles() {
      Resolve? || Reject?
    }
  }

  /** The fixed part of an interactor actor. */
  datatype Setup = Setup(self: ActorAddress, target: ActorAddress,
                         requestType: string, responseType: string)

  /** The stage and key after one delivery, and the effects it produced. */
  datatype Outcome = Outcome(stage: Stage, correlationKey: CorrelationKey, effects: seq<Effect>)

  /** The number of effects that settle the deferred. */
  function Settlements(effects: seq<Effect>): (n: nat)
    ensures n <= |effects|
    ensures n == 0 <==> forall i :: 0 <= i < |effects| ==> !effects[i].Settles()
  {
    if effects == [] then 0
    else Settlements(effects[..|effects| - 1]) + (if effects[|effects| - 1].Settles() then 1 else 0)
  }

  lemma {:induction false} SettlementsAppend(a: seq<Effect>, b: seq<Effect>)
    ensures Settlements(a + b) == Settlements(a) + Settlements(b)
    decreases |b|
  {
    if b == [] {
      assert a + b == a;
    } else {
      var b' := b[..|b| - 1];
      assert (a + b)[..|a + b| - 1] == a + b';
      SettlementsAppend(a, b');
    }
  }

  /** The fault resolver: reject the deferred and stop the actor. */
  function Fault(s: Setup, stage: Stage, key: CorrelationKey, f: Failure): (o: Outcome)
    ensures o.stage == stage && o.correlationKey == key
    ensures o.effects == [Reject(f), Stop(s.self)] && Settlements(o.effects) == 1
  {
    var e := [Reject(f), Stop(s.self)];
    assert e[..1] == [Reject(f)] && e[..1][..0] == [];
    Outcome(stage, key, e)
  }

  /** The request forwarded to the target, from the interactor, under supervision. */
  function Forward(s: Setup, m: Message<Obj>): (o: Outcome)
    ensures o.stage == ResponseWaiting && o.correlationKey == m.correlationKey
    ensures o.effects == [StartSupervision, Tell(m.WithDestination(s.target).WithSender(s.self))]
    ensures Settlements(o.effects) == 0
  {
    Outcome(ResponseWaiting, m.correlationKey,
            [StartSupervision, Tell(m.WithDestination(s.target).WithSender(s.self))])
  }

  /**
   * A response of the response type: supervision stops and the deferred is
   * resolved only when its key is the stored key; the actor stops either way.
   */
  function Complete(s: Setup, key: CorrelationKey, m: Message<Obj>): (o: Outcome)
    ensures o.stage == ResponseWaiting && o.correlationKey == key
    ensures m.correlationKey == key ==> o.effects == [StopSupervision, Resolve(m.body), Stop(s.self)]
    ensures m.correlationKey != key ==> o.effects == [Stop(s.self)]
    ensures Settlements(o.effects) == if m.correlationKey == key then 1 else 0
  {
    if m.correlationKey == key then
      var e := [StopSupervision, Resolve(m.body), Stop(s.self)];
      assert e[..2] == [StopSupervision, Resolve(m.body)] && e[..2][..1] == [StopSupervision];
      assert e[..2][..1][..0] == [];
      Outcome(ResponseWaiting, key, e)
    else
      var e := [Stop(s.self)];
      assert e[..0] == [];
      Outcome(ResponseWaiting, key, e)
  }

  /**
   * One delivery of `m` to an interactor in `stage` whose stored key is `key`.
   * A Throwable body is rethrown before the stage is looked at; otherwise the
   * request stage forwards a request-typed body and the response stage settles
   * on a response-typed body; a body of the wrong type is a fault.
   */
  function Transition(s: Setup, stage: Stage, key: CorrelationKey, m: Message<Obj>): (o: Outcome)
    // the stage only moves forward, only when supervision starts, and without settling
    ensures stage == ResponseWaiting ==> o.stage == ResponseWaiting && o.correlationKey == key
    ensures o.stage != stage ==>
              stage == RequestWaiting && StartSupervision in o.effects && Settlements(o.effects) == 0
    // every reject is immediately followed by stopping the actor
    ensures forall i :: 0 <= i < |o.effects| && o.effects[i].Reject? ==>
              i + 1 < |o.effects| && o.effects[i + 1] == Stop(s.self)
    // the deferred is settled at most once, and settling ends with stopping the actor
    ensures Settlements(o.effects) <= 1
    ensures Settlements(o.effects) == 1 ==> o.effects[|o.effects| - 1] == Stop(s.self)
    // a resolution is the correlated response, and nothing else resolves
    ensures forall x :: Resolve(x) in o.effects <==>
              stage == ResponseWaiting && !IsInstance(m.body, THROWABLE) &&
              IsInstance(m.body, s.responseType) && m.correlationKey == key && x == m.body
  {
    if IsInstance(m.body, THROWABLE) then
      Fault(s, stage, key, Received(m.body))
    else if stage == RequestWaiting then
      if IsInstance(m.body, s.requestType) then Forward(s, m)
      else Fault(s, stage, key, WrongRequestType(s.responseType, m.body))
    else
      if IsInstance(m.body, s.responseType) then Complete(s, key, m)
      else Fault(s, stage, key, WrongResponseType(s.responseType, m.body))
  }

  /** The actor has stopped itself; a stopped actor receives nothing further. */
  predicate Stopped(s: Setup, effects: seq<Effect>) {
    Stop(s.self) in effects
  }

  /** Deliveries of `ms` in order, up to the point where the actor stops itself. */
  function Deliver(s: Setup, o: Outcome, ms: seq<Message<Obj>>): (r: Outcome)
    ensures |o.effects| <= |r.effects| && r.effects[..|o.effects|] == o.effects
    decreases |ms|
  {
    if ms == [] || Stopped(s, o.effects) then o
    else
      var n := Transition(s, o.stage, o.correlationKey, ms[0]);
      var r := Deliver(s, Outcome(n.stage, n.correlationKey, o.effects + n.effects), ms[1..]);
      assert r.effects[..|o.effects|] == (o.effects + n.effects)[..|o.effects|];
      r
  }

  /** Over any sequence of deliveries to a fresh interactor the deferred is settled at most once. */
  lemma {:induction false} SettledAtMostOnce(s: Setup, o: Outcome, ms: seq<Message<Obj>>)
    requires Settlements(o.effects) <= 1
    requires Settlements(o.effects) == 1 ==> Stopped(s, o.effects)
    ensures Settlements(Deliver(s, o, ms).effects) <= 1
    decreases |ms|
  {
    if ms == [] || Stopped(s, o.effects) {
    } else {
      var n := Transition(s, o.stage, o.correlationKey, ms[0]);
      SettlementsAppend(o.effects, n.effects);
      var e := o.effects + n.effects;
      if Settlements(e) == 1 {
        assert Settlements(n.effects) == 1;
        assert e[|e| - 1] == Stop(s.self);
      }
      SettledAtMostOnce(s, Outcome(n.stage, n.correlationKey, e), ms[1..]);
    }
  }

  /** The fresh interactor's outcome: request stage, uncorrelated, nothing done. */
  const START := Outcome(RequestWaiting, Uncorrelated, [])

  lemma FreshInteractorSettlesAtMostOnce(s: Setup, ms: seq<Message<Obj>>)
    ensures Settlements(Deliver(s, START, ms).effects) <= 1
  {
    SettledAtMostOnce(s, START, ms);
  }

  /** Any Throwable body, in either stage, rejects the deferred with it and stops the actor. */
  lemma ThrowableRejects(s: Setup, stage: Stage, key: CorrelationKey, m: Message<Obj>)
    requires IsInstance(m.body, THROWABLE)
    ensures Transition(s, stage, key, m) == Outcome(stage, key, [Reject(Received(m.body)), Stop(s.self)])
  {
  }

  /** The timer's notice to the actor itself rejects with the TimeoutException in either stage. */
  lemma TimeoutRejects(s: Setup, stage: Stage, key: CorrelationKey, timeout: nat)
    ensures Transition(s, stage, key, CreateFrom(s.self, s.self, TimeoutError(timeout))).effects
            == [Reject(Received(TimeoutError(timeout))), Stop(s.self)]
  {
  }

  /** A request of the request type is forwarded to the target, from the interactor, under supervision. */
  lemma RequestForwarded(s: Setup, m: Message<Obj>)
    requires !IsInstance(m.body, THROWABLE) && IsInstance(m.body, s.requestType)
    ensures Transition(s, RequestWaiting, Uncorrelated, m) ==
            Outcome(ResponseWaiting, m.correlationKey,
                    [StartSupervision, Tell(Message(s.self, s.target, m.correlationKey, m.body))])
  {
  }

  /** A request of another type is a fault, reported with the response type as written. */
  lemma WrongRequestRejects(s: Setup, key: CorrelationKey, m: Message<Obj>)
    requires !IsInstance(m.body, THROWABLE) && !IsInstance(m.body, s.requestType)
    ensures Transition(s, RequestWaiting, key, m) ==
            Outcome(RequestWaiting, key, [Reject(WrongRequestType(s.responseType, m.body)), Stop(s.self)])
  {
  }

  /**
   * A response of the response type stops the actor; it stops supervision and
   * resolves the deferred first exactly when its key is the stored key.
   */
  lemma ResponseCompletes(s: Setup, key: CorrelationKey, m: Message<Obj>)
    requires !IsInstance(m.body, THROWABLE) && IsInstance(m.body, s.responseType)
    ensures m.correlationKey == key ==>
              Transition(s, ResponseWaiting, key, m).effects == [StopSupervision, Resolve(m.body), Stop(s.self)]
    ensures m.correlationKey != key ==>
              Transition(s, ResponseWaiting, key, m).effects == [Stop(s.self)]
  {
  }

  /** A response of another type is a fault. */
  lemma WrongResponseRejects(s: Setup, key: CorrelationKey, m: Message<Obj>)
    requires !IsInstance(m.body, THROWABLE) && !IsInstance(m.body, s.responseType)
    ensures Transition(s, ResponseWaiting, key, m).effects ==
            [Reject(WrongResponseType(s.responseType, m.body)), Stop(s.self)]
  {
  }

  /** The name of an interactor actor: the prefix followed by a random UUID. */
  function ActorName(uuid: string): (name: string)
    ensures |name| == 13 + |uuid|
    ensures name[..13] == "INTERACTION--" && name[13..] == uuid
  {
    "INTERACTION--" + uuid
  }

  /** The names of two interactors differ when their UUIDs do. */
  lemma ActorNamesDistinct(u: string, v: string)
    requires u != v
    ensures ActorName(u) != ActorName(v)
  {
    assert ActorName(u)[13..] == u && ActorName(v)[13..] == v;
  }

  /** The request an invocation sends to its new interactor actor. */
  function InvocationRequest(interactor: ActorAddress, request: Obj): (m: Message<Obj>)
    ensures m.destination == interactor && m.body == request
    ensures m.sender == UnknownAddress && m.correlationKey == Uncorrelated
  {
    CreateFor(interactor, request)
  }

  /** The intermediate actor with its mutable stage and stored correlation key. */
  class InteractorActor {
    const self: ActorAddress
    const targetAddress: ActorAddress
    const requestType: string
    const responseType: string
    const timeout: nat
    var correlationKey: CorrelationKey
    var stage: Stage
    /** Everything the actor has told, stopped, resolved, rejected or supervised, in order. */
    var effects: seq<Effect>

    function Config(): Setup
      reads this
    {
      Setup(self, targetAddress, requestType, responseType)
    }

    constructor(self: ActorAddress, targetAddress: ActorAddress, requestType: string,
                responseType: string, timeout: nat)
      ensures this.self == self && this.targetAddress == targetAddress
      ensures this.requestType == requestType && this.responseType == responseType
      ensures this.timeout == timeout
      ensures stage == RequestWaiting && correlationKey == Uncorrelated && effects == []
    {
      this.self := self;
      this.targetAddress := targetAddress;
      this.requestType := requestType;
      this.responseType := responseType;
      this.timeout := timeout;
      correlationKey := Uncorrelated;
      stage := RequestWaiting;
      effects := [];
    }

    /** The message the timer tells the actor when the timeout elapses. */
    function TimeoutNotice(): (m: Message<Obj>)
      reads this
      ensures m.sender == self && m.destination == self && IsInstance(m.body, THROWABLE)
    {
      CreateFrom(self, self, TimeoutError(timeout))
    }

    method Receive(m: Message<Obj>)
      modifies this
      ensures var o := Transition(Config(), old(stage), old(correlationKey), m);
              stage == o.stage && correlationKey == o.correlationKey &&
              effects == old(effects) + o.effects
    {
      if IsInstance(m.body, THROWABLE) {
        ResolveError(Received(m.body));
      } else if stage == RequestWaiting {
        ProcessRequest(m);
      } else {
        ProcessResponse(m);
      }
    }

    method ResolveError(f: Failure)
      modifies this
      ensures stage == old(stage) && correlationKey == old(correlationKey)
      ensures effects == old(effects) + [Reject(f), Stop(self)]
    {
      effects := effects + [Reject(f)];
      effects := effects + [Stop(self)];
    }

    method ProcessRequest(m: Message<Obj>)
      requires stage == RequestWaiting && !IsInstance(m.body, THROWABLE)
      modifies this
      ensures var o := Transition(Config(), old(stage), old(correlationKey), m);
              stage == o.stage && correlationKey == o.correlationKey &&
              effects == old(effects) + o.effects
    {
      if IsInstance(m.body, requestType) {
        HandleRequest(m);
      } else {
        ResolveError(WrongRequestType(responseType, m.body));
      }
    }

    method ProcessResponse(m: Message<Obj>)
      requires stage == ResponseWaiting && !IsInstance(m.body, THROWABLE)
      modifies this
      ensures var o := Transition(Config(), old(stage), old(correlationKey), m);
              stage == o.stage && correlationKey == o.correlationKey &&
              effects == old(effects) + o.effects
    {
      if IsInstance(m.body, responseType) {
        HandleResponse(m);
        effects := effects + [Stop(self)];
      } else {
        ResolveError(WrongResponseType(responseType, m.body));
      }
    }

    method HandleRequest(m: Message<Obj>)
      modifies this
      ensures stage == ResponseWaiting && correlationKey == m.correlationKey
      ensures effects == old(effects) + [StartSupervision, Tell(m.WithDestination(targetAddress).WithSender(self))]
    {
      stage := ResponseWaiting;
      correlationKey := m.correlationKey;
      effects := effects + [StartSupervision];
      effects := effects + [Tell(m.WithDestination(targetAddress).WithSender(self))];
    }

    method HandleResponse(m: Message<Obj>)
      modifies this
      ensures stage == old(stage) && correlationKey == old(correlationKey)
      ensures m.correlationKey == correlationKey ==>
                effects == old(effects) + [StopSupervision, Resolve(m.body)]
      ensures m.correlationKey != correlationKey ==> effects == old(effects)
    {
      if m.correlationKey == correlationKey {
        effects := effects + [StopSupervision];
        effects := effects + [Resolve(m.body)];
      }
    }
  }
}
