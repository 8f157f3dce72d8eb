/** Values shared by the protocol codec and the relay: bytes, key-value pairs,
    namespaces and the 24 control messages. */
module MoqTypes {

  type Byte = x: int | 0 <= x < 256
  type Bytes = seq<Byte>

  /** Largest value a QUIC varint can carry (RFC 9000, section 16). */
  const MAX_VARINT: nat := 0x3fff_ffff_ffff_ffff

  const MAX_U64: nat := 0xffff_ffff_ffff_ffff

  /** What a vector may take up in memory: `isize::MAX` bytes. */
  const MAX_LEN: nat := 0x7fff_ffff_ffff_ffff

  datatype Option<+T> = None | Some(value: T)

  datatype KvValue = Varint(number: nat) | Blob(bytes: Bytes)

  datatype KeyValuePair = KeyValuePair(key: nat, value: KvValue)

  type Parameters = seq<KeyValuePair>
  type Extensions = seq<KeyValuePair>

  /** The fields of a track namespace, outermost first. */
  type Namespace = seq<Bytes>

  datatype Location = Location(group: nat, object_: nat)

  datatype FetchType =
    | Standalone(trackNamespace: Namespace, trackName: Bytes, start: Location, end: Location)
    | RelativeJoining(joiningRequestId: nat, joiningStart: nat)
    | AbsoluteJoining(joiningRequestId: nat, joiningStart: nat)

  datatype SubscribeOption = PublishOnly | NamespaceOnly | Both

  datatype ControlMessage =
    | ClientSetup(parameters: Parameters)
    | ServerSetup(parameters: Parameters)
    | Goaway(newSessionUri: Bytes)
    | MaxRequestId(maxRequestId: nat)
    | RequestsBlocked(maximumRequestId: nat)
    | RequestOk(requestId: nat, parameters: Parameters)
    | RequestError(requestId: nat, errorCode: nat, retryInterval: nat, errorReason: Bytes)
    | Subscribe(requestId: nat, trackNamespace: Namespace, trackName: Bytes, parameters: Parameters)
    | SubscribeOk(requestId: nat, trackAlias: nat, parameters: Parameters, trackExtensions: Extensions)
    | RequestUpdate(requestId: nat, existingRequestId: nat, parameters: Parameters)
    | Unsubscribe(requestId: nat)
    | Publish(requestId: nat, trackNamespace: Namespace, trackName: Bytes, trackAlias: nat,
              parameters: Parameters, trackExtensions: Extensions)
    | PublishOk(requestId: nat, parameters: Parameters)
    | PublishDone(requestId: nat, statusCode: nat, streamCount: nat, errorReason: Bytes)
    | Fetch(requestId: nat, fetchType: FetchType, parameters: Parameters)
    | FetchOk(requestId: nat, endOfTrack: bool, endLocation: Location, parameters: Parameters,
              trackExtensions: Extensions)
    | FetchCancel(requestId: nat)
    | TrackStatus(requestId: nat, trackNamespace: Namespace, trackName: Bytes, parameters: Parameters)
    | PublishNamespace(requestId: nat, trackNamespace: Namespace, parameters: Parameters)
    | NamespaceMsg(trackNamespaceSuffix: Namespace)
    | PublishNamespaceDone(requestId: nat)
    | NamespaceDone(trackNamespaceSuffix: Namespace)
    | PublishNamespaceCancel(requestId: nat, errorCode: nat, errorReason: Bytes)
    | SubscribeNamespace(requestId: nat, trackNamespacePrefix: Namespace,
                         subscribeOptions: SubscribeOption, parameters: Parameters)
}
