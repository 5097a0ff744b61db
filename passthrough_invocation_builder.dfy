/**
 * `PassthroughInvocationBuilder`: the builder the in-process passthrough connection hands to
 * its client endpoint. It implements the raw, byte-payload form of `InvocationBuilder`
 * (`ackReceived`, `ackCompleted`, `replicate`, `payload`, `invoke`). The setters assign one
 * field and return the builder itself; `invoke` forwards the current fields to the connection.
 */
module Passthrough {
  import opened Wrappers

  /** Java `long`. */
  newtype Int64 = x: int | -0x8000_0000_0000_0000 <= x < 0x8000_0000_0000_0000

  /** Java `byte[]` contents. */
  type Bytes = seq<bv8>

  /** The argument tuple of one `invokeActionAndWaitForAcks` call, in its parameter order. */
  datatype InvocationRequest = InvocationRequest(
    entityClass: string,
    entityName: string,
    clientInstanceID: Int64,
    shouldWaitForReceived: bool,
    shouldWaitForCompleted: bool,
    shouldReplicate: bool,
    payload: Option<Bytes>)

  /** The four mutable configuration fields of the builder. */
  datatype Configuration = Configuration(
    shouldWaitForReceived: bool,
    shouldWaitForCompleted: bool,
    shouldReplicate: bool,
    payload: Option<Bytes>)

  /** The Java defaults of the fields the constructor leaves unassigned: `false` and `null`. */
  function DefaultConfiguration(): (c: Configuration)
    ensures !c.shouldWaitForReceived && !c.shouldWaitForCompleted
    ensures !c.shouldReplicate && c.payload == None
  {
    Configuration(false, false, false, None)
  }

  /** One fluent setter call. */
  datatype Setter =
    | AckReceived
    | AckCompleted
    | Replicate(requiresReplication: bool)
    | Payload(bytes: Option<Bytes>)

  /** The effect of one setter: exactly one field changes. */
  function Apply(c: Configuration, s: Setter): (r: Configuration)
    ensures r.shouldWaitForReceived == (c.shouldWaitForReceived || s == AckReceived)
    ensures r.shouldWaitForCompleted == (c.shouldWaitForCompleted || s == AckCompleted)
    ensures r.shouldReplicate == if s.Replicate? then s.requiresReplication else c.shouldReplicate
    ensures r.payload == if s.Payload? then s.bytes else c.payload
  {
    match s
    case AckReceived => c.(shouldWaitForReceived := true)
    case AckCompleted => c.(shouldWaitForCompleted := true)
    case Replicate(b) => c.(shouldReplicate := b)
    case Payload(p) => c.(payload := p)
  }

  /**
   * A chain of setter calls, applied left to right. The ack flags are never cleared, and a chain
   * without `replicate` or without `payload` leaves that field as it was.
   */
  function ApplyAll(c: Configuration, chain: seq<Setter>): (r: Configuration)
    ensures c.shouldWaitForReceived ==> r.shouldWaitForReceived
    ensures c.shouldWaitForCompleted ==> r.shouldWaitForCompleted
    ensures (forall i :: 0 <= i < |chain| ==> !chain[i].Replicate?) ==> r.shouldReplicate == c.shouldReplicate
    ensures (forall i :: 0 <= i < |chain| ==> !chain[i].Payload?) ==> r.payload == c.payload
    decreases |chain|
  {
    if chain == [] then c else Apply(ApplyAll(c, chain[..|chain| - 1]), chain[|chain| - 1])
  }

  /** The last `replicate` argument in a chain, if any. */
  function LastReplicate(chain: seq<Setter>): Option<bool>
    decreases |chain|
  {
    if chain == [] then None
    else if chain[|chain| - 1].Replicate? then Some(chain[|chain| - 1].requiresReplication)
    else LastReplicate(chain[..|chain| - 1])
  }

  /** The last `payload` argument in a chain, if any. */
  function LastPayload(chain: seq<Setter>): Option<Option<Bytes>>
    decreases |chain|
  {
    if chain == [] then None
    else if chain[|chain| - 1].Payload? then Some(chain[|chain| - 1].bytes)
    else LastPayload(chain[..|chain| - 1])
  }

  /** Every setter is idempotent: calling it twice in a row is calling it once. */
  lemma ApplyIdempotent(c: Configuration, s: Setter)
    ensures Apply(Apply(c, s), s) == Apply(c, s)
  {
  }

  /**
   * After any chain of setter calls, each field is decided independently: the ack flags are
   * set exactly when the chain contains the matching call (they are never cleared), and
   * `shouldReplicate` and `payload` hold the argument of the last call that set them.
   */
  lemma {:induction false} ApplyAllFields(c: Configuration, chain: seq<Setter>)
    ensures ApplyAll(c, chain).shouldWaitForReceived <==> c.shouldWaitForReceived || AckReceived in chain
    ensures ApplyAll(c, chain).shouldWaitForCompleted <==> c.shouldWaitForCompleted || AckCompleted in chain
    ensures ApplyAll(c, chain).shouldReplicate
      == match LastReplicate(chain) case Some(b) => b case None => c.shouldReplicate
    ensures ApplyAll(c, chain).payload
      == match LastPayload(chain) case Some(p) => p case None => c.payload
    decreases |chain|
  {
    if chain != [] {
      var init := chain[..|chain| - 1];
      ApplyAllFields(c, init);
      assert chain == init + [chain[|chain| - 1]];
    }
  }

  /**
   * The connection the builder forwards to; `invokeActionAndWaitForAcks` is not part of this
   * model, so it records each call's arguments and answers with the call's position.
   */
  class PassthroughConnection {
    var invocations: seq<InvocationRequest>

    constructor ()
      ensures invocations == []
    {
      invocations := [];
    }

    method InvokeActionAndWaitForAcks(entityClass: string, entityName: string, clientInstanceID: Int64,
                                      shouldWaitForReceived: bool, shouldWaitForCompleted: bool,
                                      shouldReplicate: bool, payload: Option<Bytes>) returns (handle: nat)
      modifies this
      ensures invocations == old(invocations) + [InvocationRequest(entityClass, entityName, clientInstanceID,
                                                   shouldWaitForReceived, shouldWaitForCompleted,
                                                   shouldReplicate, payload)]
      ensures handle == |old(invocations)|
    {
      handle := |invocations|;
      invocations := invocations + [InvocationRequest(entityClass, entityName, clientInstanceID,
                                      shouldWaitForReceived, shouldWaitForCompleted,
                                      shouldReplicate, payload)];
    }
  }

  class PassthroughInvocationBuilder {
    const connection: PassthroughConnection
    const entityClass: string
    const entityName: string
    const clientInstanceID: Int64

    var shouldWaitForReceived: bool
    var shouldWaitForCompleted: bool
    var shouldReplicate: bool
    var payload: Option<Bytes>

    /** The current configuration fields. */
    function Current(): Configuration
      reads this
    {
      Configuration(shouldWaitForReceived, shouldWaitForCompleted, shouldReplicate, payload)
    }

    /** What `invoke` would forward now: the identity fields followed by the configuration. */
    function Request(): InvocationRequest
      reads this
    {
      InvocationRequest(entityClass, entityName, clientInstanceID,
                        shouldWaitForReceived, shouldWaitForCompleted, shouldReplicate, payload)
    }

    /** Stores the four identity fields verbatim; the others keep their Java defaults. */
    constructor (connection: PassthroughConnection, entityClass: string, entityName: string, clientInstanceID: Int64)
      ensures this.connection == connection && this.entityClass == entityClass
      ensures this.entityName == entityName && this.clientInstanceID == clientInstanceID
      ensures Current() == DefaultConfiguration()
    {
      this.connection := connection;
      this.entityClass := entityClass;
      this.entityName := entityName;
      this.clientInstanceID := clientInstanceID;
      shouldWaitForReceived := false;
      shouldWaitForCompleted := false;
      shouldReplicate := false;
      payload := None;
    }

    method AckReceived() returns (self: PassthroughInvocationBuilder)
      modifies this
      ensures self == this
      ensures Current() == Apply(old(Current()), Setter.AckReceived)
      ensures shouldWaitForReceived && shouldWaitForCompleted == old(shouldWaitForCompleted)
      ensures shouldReplicate == old(shouldReplicate) && payload == old(payload)
    {
      shouldWaitForReceived := true;
      self := this;
    }

    method AckCompleted() returns (self: PassthroughInvocationBuilder)
      modifies this
      ensures self == this
      ensures Current() == Apply(old(Current()), Setter.AckCompleted)
      ensures shouldWaitForCompleted && shouldWaitForReceived == old(shouldWaitForReceived)
      ensures shouldReplicate == old(shouldReplicate) && payload == old(payload)
    {
      shouldWaitForCompleted := true;
      self := this;
    }

    method Replicate(requiresReplication: bool) returns (self: PassthroughInvocationBuilder)
      modifies this
      ensures self == this
      ensures Current() == Apply(old(Current()), Setter.Replicate(requiresReplication))
      ensures shouldReplicate == requiresReplication && payload == old(payload)
      ensures shouldWaitForReceived == old(shouldWaitForReceived)
      ensures shouldWaitForCompleted == old(shouldWaitForCompleted)
    {
      shouldReplicate := requiresReplication;
      self := this;
    }

    method Payload(bytes: Option<Bytes>) returns (self: PassthroughInvocationBuilder)
      modifies this
      ensures self == this
      ensures Current() == Apply(old(Current()), Setter.Payload(bytes))
      ensures payload == bytes && shouldReplicate == old(shouldReplicate)
      ensures shouldWaitForReceived == old(shouldWaitForReceived)
      ensures shouldWaitForCompleted == old(shouldWaitForCompleted)
    {
      payload := bytes;
      self := this;
    }

    /**
     * Forwards the current fields, in order, to the connection. The builder is left as it is,
     * so a second call forwards the same tuple again: nothing guards against reuse.
     */
    method Invoke() returns (handle: nat)
      modifies connection
      ensures unchanged(this)
      ensures connection.invocations == old(connection.invocations) + [Request()]
      ensures handle == |old(connection.invocations)|
    {
      handle := connection.InvokeActionAndWaitForAcks(entityClass, entityName, clientInstanceID,
                                                      shouldWaitForReceived, shouldWaitForCompleted,
                                                      shouldReplicate, payload);
    }
  }

  /**
   * A client of the builder: a fresh builder that is configured only through `payload` and then
   * invoked twice sends two identical requests, both with `shouldReplicate` false.
   */
  method InvokeTwiceWithDefaults(connection: PassthroughConnection, entityClass: string, entityName: string,
                                 clientInstanceID: Int64, bytes: Bytes)
    returns (first: InvocationRequest, second: InvocationRequest)
    modifies connection
    ensures first == second && !first.shouldReplicate
    ensures !first.shouldWaitForReceived && !first.shouldWaitForCompleted && first.payload == Some(bytes)
    ensures first == InvocationRequest(entityClass, entityName, clientInstanceID, false, false, false, Some(bytes))
    ensures connection.invocations == old(connection.invocations) + [first, second]
  {
    var builder := new PassthroughInvocationBuilder(connection, entityClass, entityName, clientInstanceID);
    var _ := builder.Payload(Some(bytes));
    var h1 := builder.Invoke();
    var h2 := builder.Invoke();
    first := connection.invocations[h1];
    second := connection.invocations[h2];
  }
}
