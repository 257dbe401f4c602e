/** The device parameters the firmware keeps in global variables, and the
    initialiser it hands to the OpenRF MAC layer. */
module DeviceConfig {
  import opened Bytes

  /** The configuration globals (`_macAddress` .. `_hopTable`) taken together. */
  datatype Config = Config(
    macAddress: Word,
    networkId: Word,
    destinationAddress: Word,
    encryptionKey: Key,
    operatingMode: u8,
    quiet: u8,
    transmitTriggerLevel: u8,
    transmitTriggerTimeout: u16,
    packetType: u8,
    radioDataRate: u8,
    transmitPower: u8,
    uartBaudRate: u8,
    ackRetries: u8,
    ackTimeout: u16,
    hopTable: u8)

  /** `tOpenRFInitializer`, as the dispatcher fills it in. */
  datatype InitConfig = InitConfig(
    ackRetries: u8,
    ackTimeout: u16,
    channelCount: nat,
    dataRate: u8,
    encryptionKey: Key,
    gfskModifier: nat,
    hopTable: u8,
    macAddress: Word,
    networkId: Word,
    startChannel: nat)

  const ChannelCount: nat := 25
  const StartChannel: nat := 0
  const GfskModifier: nat := 1

  /** The snapshot passed to `OpenRFInitialize` after a radio parameter is set. */
  function InitFrom(c: Config): InitConfig
  {
    InitConfig(c.ackRetries, c.ackTimeout, ChannelCount, c.radioDataRate, c.encryptionKey,
               GfskModifier, c.hopTable, c.macAddress, c.networkId, StartChannel)
  }

  /** Values defined in platform headers that are not part of this model:
      `kMulticastPacketType`, `k38400BPS`, and what the persistent-storage
      driver reads back from an erased byte. */
  datatype Platform = Platform(multicastPacketType: u8, dataRate38400: u8, erasedByte: u8)

  /** The power-on value of the configuration globals: C zero-initialises
      variables of static storage duration. */
  function ZeroConfig(): Config
  {
    Config([0, 0, 0, 0], [0, 0, 0, 0], [0, 0, 0, 0],
           [0, 0, 0, 0, 0, 0, 0, 0, 0, 0, 0, 0, 0, 0, 0, 0],
           0, 0, 0, 0, 0, 0, 0, 0, 0, 0, 0)
  }
}
