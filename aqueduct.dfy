/**
 * The aqueduct block entity: a storage node of the irrigation network that
 * never sets a flow of its own, may be filled by rain where it sees the
 * sky, and exposes its network's fluid handler once it has been bound on
 * the server. The network itself is outside this model: what the network
 * lookup returns is passed in, and a change notification is returned.
 */
module Aqueduct {
  import opened Wrappers
  import opened YTechConfig

  /** The irrigation network types. */
  datatype NetworkType = Provider | Consumer | Storage

  datatype BlockPos = BlockPos(x: int, y: int, z: int)

  /** The level the block entity is in, if any. */
  datatype LevelKind = NoLevel | ClientLevel | ServerLevel

  datatype Precipitation = NoPrecipitation | Rain | Snow

  /** A network that holds fluid, identified by its id. */
  type NetworkId = int

  /** The lazily supplied fluid handler of a network. */
  datatype FluidHandler = NetworkFluidHandler(network: NetworkId)

  /** The capabilities a neighbour can ask for; only fluid handling is served. */
  datatype Capability = FluidHandlerCapability | OtherCapability(name: string)

  /**
   * The answer to a capability query: the bound handler, the empty answer,
   * or the fluid-handler query before any handler was bound, where the
   * source hands a null handler to `orEmpty`.
   */
  datatype CapabilityAnswer = Handler(handler: FluidHandler) | EmptyAnswer | UnboundHandler

  /** A request to the irrigation propagator. */
  datatype Notification = Changed(pos: BlockPos)

  /** `validForRainFilling`. */
  function ValidForRainFilling(level: LevelKind, validBlockForRaining: bool, canSeeSkyAbove: bool, precipitation: Precipitation): (b: bool)
    ensures level != ServerLevel ==> !b
    ensures level == ServerLevel && !validBlockForRaining ==> b
    ensures level == ServerLevel && validBlockForRaining ==> (b <==> canSeeSkyAbove && precipitation == Rain)
  {
    if level == ServerLevel then !validBlockForRaining || (canSeeSkyAbove && precipitation == Rain)
    else false
  }

  /**
   * With the default configuration, an aqueduct fills with rain only on
   * the server, under open sky, in a biome where it rains.
   */
  lemma DefaultRainFilling(level: LevelKind, canSeeSkyAbove: bool, precipitation: Precipitation)
    ensures ValidForRainFilling(level, Defaults().validBlockForRaining, canSeeSkyAbove, precipitation)
      <==> level == ServerLevel && canSeeSkyAbove && precipitation == Rain
  {
  }

  class AqueductBlockEntity {
    const pos: BlockPos
    /** `lazyFluidHandler`: null until bound on the server. */
    var lazyFluidHandler: Option<FluidHandler>

    constructor (pos: BlockPos)
      ensures this.pos == pos && lazyFluidHandler == None
    {
      this.pos := pos;
      lazyFluidHandler := None;
    }

    /** `getFlow`: an aqueduct only stores water. */
    function GetFlow(): (r: int)
      ensures r == 0
    {
      0
    }

    /** `getNetworkType`. */
    function GetNetworkType(): (r: NetworkType)
      ensures r == Storage
    {
      Storage
    }

    /**
     * `onLoad`: on the server, the handler of the network the propagator
     * returns for this entity is bound; with no network, or off the server,
     * nothing changes.
     */
    method OnLoad(level: LevelKind, network: Option<NetworkId>)
      modifies this
      ensures level == ServerLevel && network.Some? ==> lazyFluidHandler == Some(NetworkFluidHandler(network.value))
      ensures !(level == ServerLevel && network.Some?) ==> lazyFluidHandler == old(lazyFluidHandler)
    {
      if level != NoLevel && level != ClientLevel {
        if network.Some? {
          lazyFluidHandler := Some(NetworkFluidHandler(network.value));
        }
      }
    }

    /** `getCapability`: the fluid handler for the fluid-handler capability, empty for any other. */
    function GetCapability(cap: Capability): (r: CapabilityAnswer)
      reads this
      ensures cap.OtherCapability? ==> r == EmptyAnswer
      ensures cap == FluidHandlerCapability && lazyFluidHandler.Some? ==> r == Handler(lazyFluidHandler.value)
      ensures cap == FluidHandlerCapability && lazyFluidHandler.None? ==> r == UnboundHandler
    {
      if cap != FluidHandlerCapability then EmptyAnswer
      else match lazyFluidHandler
        case Some(h) => Handler(h)
        case None => UnboundHandler
    }

    /** `onRandomTick`: the propagator is told this aqueduct changed. */
    method OnRandomTick() returns (n: Notification)
      ensures n == Changed(pos)
    {
      n := Changed(pos);
    }
  }

  /**
   * A fresh aqueduct loaded on the server hands out its network's fluid
   * handler; one loaded on the client, or whose network is unknown, never
   * does.
   */
  method LoadAndQuery(pos: BlockPos, level: LevelKind, network: Option<NetworkId>) returns (answer: CapabilityAnswer)
    ensures answer.Handler? <==> level == ServerLevel && network.Some?
    ensures answer.Handler? ==> answer.handler == NetworkFluidHandler(network.value)
  {
    var entity := new AqueductBlockEntity(pos);
    entity.OnLoad(level, network);
    answer := entity.GetCapability(FluidHandlerCapability);
  }
}
