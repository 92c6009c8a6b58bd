/**
 The interface to the transport layer (`greefan.network`), which is not part of
 this model: each awaited call is either answered or times out, and the device
 model reports every call it issues.
 */
module Network {
  import opened Wrappers
  import opened DeviceIdentity

  /** The outcome of one awaited call: `asyncio.TimeoutError`, or the value it returned. */
  datatype Reply<T> = TimedOut | Replied(value: T)

  /** One call into the transport layer, with the arguments it was given. */
  datatype Call =
    | BindDevice(info: DeviceInfo)
    | RequestState(codes: seq<string>, target: Option<DeviceInfo>, key: Option<string>)
    | SendState(props: map<string, Option<int>>, target: Option<DeviceInfo>, key: Option<string>)
}
