/**
 * The SQS endpoint descriptor and its fluent builder.
 *
 * The builder is a mutable object: every setter overwrites one field and hands back the
 * same builder. `Build` copies the builder's current values into an endpoint whose
 * settings are final, so the endpoint is modelled as an immutable datatype value.
 * Nothing is validated: any 32-bit value, zero and negative ones included, and `null`
 * (`None`) are accepted everywhere.
 */
module SqsEndpointConfig {
  import opened Wrappers

  /** Java's 32-bit `int`, the value carried by a non-null `java.lang.Integer`. */
  newtype Int32 = x: int | -0x8000_0000 <= x < 0x8000_0000

  /** A nullable `java.lang.Integer`. */
  type JInteger = Option<Int32>

  /** A `java.time.Duration`, counted in whole seconds. */
  type Seconds = int

  /**
   * The caller's collection of logical endpoint names. Builder and endpoint keep the
   * reference they were given, so the caller may still change its contents.
   */
  class NameCollection {
    var elements: seq<string>

    constructor (elements: seq<string>)
      ensures this.elements == elements
    {
      this.elements := elements;
    }
  }

  /**
   * A built endpoint. The first four fields are what the endpoint hands to its
   * superclass; the last three are its own final settings.
   */
  datatype SqsEndpoint = Endpoint(
    logicalEndpointNames: NameCollection?,
    listenerContainerFactoryName: Option<string>,
    id: Option<string>,
    async: Option<bool>,
    maxInflightMessagesPerQueue: JInteger,
    pollTimeoutSeconds: JInteger,
    minimumVisibility: JInteger)
  {
    /** The most messages each queue of this endpoint may process at once. */
    function GetMaxInflightMessagesPerQueue(): (maxInflight: JInteger)
      ensures maxInflight == maxInflightMessagesPerQueue
    {
      maxInflightMessagesPerQueue
    }

    /** How long one poll waits for messages: absent exactly when no seconds were configured. */
    function GetPollTimeout(): (timeout: Option<Seconds>)
      ensures timeout.None? <==> pollTimeoutSeconds.None?
      ensures pollTimeoutSeconds.Some? ==> timeout == Some(pollTimeoutSeconds.value as Seconds)
    {
      if pollTimeoutSeconds != None then Some(pollTimeoutSeconds.value as Seconds) else None
    }

    /** The visibility margin below which a message's visibility gets extended. */
    function GetMinimumVisibility(): (visibility: JInteger)
      ensures visibility == minimumVisibility
    {
      minimumVisibility
    }
  }

  /**
   * The endpoint's private constructor, with its parameters in declaration order.
   * The fifth parameter, `minTimeToProcess`, becomes the minimum visibility.
   */
  function NewSqsEndpoint(
    logicalEndpointNames: NameCollection?, listenerContainerFactoryName: Option<string>,
    maxInflightMessagesPerQueue: JInteger, pollTimeoutSeconds: JInteger, minTimeToProcess: JInteger,
    async: Option<bool>, id: Option<string>): (endpoint: SqsEndpoint)
    ensures endpoint.logicalEndpointNames == logicalEndpointNames
    ensures endpoint.listenerContainerFactoryName == listenerContainerFactoryName
    ensures endpoint.id == id && endpoint.async == async
    ensures endpoint.GetMaxInflightMessagesPerQueue() == maxInflightMessagesPerQueue
    ensures endpoint.GetPollTimeout().None? <==> pollTimeoutSeconds.None?
    ensures pollTimeoutSeconds.Some? ==> endpoint.GetPollTimeout() == Some(pollTimeoutSeconds.value as Seconds)
    ensures endpoint.GetMinimumVisibility() == minTimeToProcess
  {
    Endpoint(
      logicalEndpointNames := logicalEndpointNames,
      listenerContainerFactoryName := listenerContainerFactoryName,
      id := id,
      async := async,
      maxInflightMessagesPerQueue := maxInflightMessagesPerQueue,
      pollTimeoutSeconds := pollTimeoutSeconds,
      minimumVisibility := minTimeToProcess)
  }

  /** The optional settings a builder holds, as one value. */
  datatype BuilderSettings = BuilderSettings(
    factoryName: Option<string>,
    maxInflightMessagesPerQueue: JInteger,
    pollTimeoutSeconds: JInteger,
    minimumVisibility: JInteger,
    async: Option<bool>,
    id: Option<string>)

  /** A fresh builder's settings: every optional field is `null`. */
  const Unset := BuilderSettings(None, None, None, None, None, None)

  class SqsEndpointBuilder {
    const logicalEndpointNames: NameCollection?
    var maxInflightMessagesPerQueue: JInteger
    var pollTimeoutSeconds: JInteger
    var factoryName: Option<string>
    var minimumVisibility: JInteger
    var async: Option<bool>
    var id: Option<string>

    /** The current values of the optional fields. */
    function Settings(): BuilderSettings
      reads this
    {
      BuilderSettings(factoryName, maxInflightMessagesPerQueue, pollTimeoutSeconds,
                      minimumVisibility, async, id)
    }

    /** Keeps the given names (the reference itself) and leaves everything else unset. */
    constructor (logicalEndpointNames: NameCollection?)
      ensures this.logicalEndpointNames == logicalEndpointNames
      ensures Settings() == Unset
    {
      this.logicalEndpointNames := logicalEndpointNames;
      maxInflightMessagesPerQueue := None;
      pollTimeoutSeconds := None;
      factoryName := None;
      minimumVisibility := None;
      async := None;
      id := None;
    }

    method FactoryBeanName(factoryName: Option<string>) returns (self: SqsEndpointBuilder)
      modifies this`factoryName
      ensures self == this
      ensures Settings() == old(Settings()).(factoryName := factoryName)
    {
      this.factoryName := factoryName;
      self := this;
    }

    method MaxInflightMessagesPerQueue(maxInflightMessagesPerQueue: JInteger) returns (self: SqsEndpointBuilder)
      modifies this`maxInflightMessagesPerQueue
      ensures self == this
      ensures Settings() == old(Settings()).(maxInflightMessagesPerQueue := maxInflightMessagesPerQueue)
    {
      this.maxInflightMessagesPerQueue := maxInflightMessagesPerQueue;
      self := this;
    }

    method PollTimeoutSeconds(pollTimeoutSeconds: JInteger) returns (self: SqsEndpointBuilder)
      modifies this`pollTimeoutSeconds
      ensures self == this
      ensures Settings() == old(Settings()).(pollTimeoutSeconds := pollTimeoutSeconds)
    {
      this.pollTimeoutSeconds := pollTimeoutSeconds;
      self := this;
    }

    method MinimumVisibility(minimumVisibility: JInteger) returns (self: SqsEndpointBuilder)
      modifies this`minimumVisibility
      ensures self == this
      ensures Settings() == old(Settings()).(minimumVisibility := minimumVisibility)
    {
      this.minimumVisibility := minimumVisibility;
      self := this;
    }

    /** The parameter is a primitive `boolean`, so afterwards `async` is never `null`. */
    method Async(async: bool) returns (self: SqsEndpointBuilder)
      modifies this`async
      ensures self == this
      ensures Settings() == old(Settings()).(async := Some(async))
    {
      this.async := Some(async);
      self := this;
    }

    method Id(id: Option<string>) returns (self: SqsEndpointBuilder)
      modifies this`id
      ensures self == this
      ensures Settings() == old(Settings()).(id := id)
    {
      this.id := id;
      self := this;
    }

    /**
     * Never fails and validates nothing: the endpoint reports, through its getters,
     * exactly the builder's values at the time of the call, each in its own place.
     */
    method Build() returns (endpoint: SqsEndpoint)
      ensures endpoint.logicalEndpointNames == logicalEndpointNames
      ensures endpoint.listenerContainerFactoryName == factoryName
      ensures endpoint.id == id && endpoint.async == async
      ensures endpoint.GetMaxInflightMessagesPerQueue() == maxInflightMessagesPerQueue
      ensures endpoint.GetPollTimeout().None? <==> pollTimeoutSeconds.None?
      ensures pollTimeoutSeconds.Some? ==> endpoint.GetPollTimeout() == Some(pollTimeoutSeconds.value as Seconds)
      ensures endpoint.GetMinimumVisibility() == minimumVisibility
    {
      endpoint := NewSqsEndpoint(logicalEndpointNames, factoryName, maxInflightMessagesPerQueue,
                                 pollTimeoutSeconds, minimumVisibility, async, id);
    }
  }

  /** A new builder for the given names, with every optional setting unset. */
  method From(logicalEndpointNames: NameCollection?) returns (builder: SqsEndpointBuilder)
    ensures fresh(builder)
    ensures builder.logicalEndpointNames == logicalEndpointNames
    ensures builder.Settings() == Unset
  {
    builder := new SqsEndpointBuilder(logicalEndpointNames);
  }
}
