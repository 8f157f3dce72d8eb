/** Control messages: their types, their fields, and their framing (the `message` files). */
module CodecMessages {
  import opened MoqTypes
  import opened CodecFields

  const MSG_REQUEST_UPDATE: nat := 0x02
  const MSG_SUBSCRIBE: nat := 0x03
  const MSG_SUBSCRIBE_OK: nat := 0x04
  const MSG_REQUEST_ERROR: nat := 0x05
  const MSG_PUBLISH_NAMESPACE: nat := 0x06
  const MSG_REQUEST_OK: nat := 0x07
  const MSG_NAMESPACE: nat := 0x08
  const MSG_PUBLISH_NAMESPACE_DONE: nat := 0x09
  const MSG_UNSUBSCRIBE: nat := 0x0A
  const MSG_PUBLISH_DONE: nat := 0x0B
  const MSG_PUBLISH_NAMESPACE_CANCEL: nat := 0x0C
  const MSG_TRACK_STATUS: nat := 0x0D
  const MSG_NAMESPACE_DONE: nat := 0x0E
  const MSG_GOAWAY: nat := 0x10
  const MSG_SUBSCRIBE_NAMESPACE: nat := 0x11
  const MSG_MAX_REQUEST_ID: nat := 0x15
  const MSG_FETCH: nat := 0x16
  const MSG_FETCH_CANCEL: nat := 0x17
  const MSG_FETCH_OK: nat := 0x18
  const MSG_REQUESTS_BLOCKED: nat := 0x1A
  const MSG_PUBLISH: nat := 0x1D
  const MSG_PUBLISH_OK: nat := 0x1E
  const MSG_CLIENT_SETUP: nat := 0x20
  const MSG_SERVER_SETUP: nat := 0x21

  const MAX_PAYLOAD: nat := 65535

  function MessageType(m: ControlMessage): nat {
    match m
    case ClientSetup(_) => MSG_CLIENT_SETUP
    case ServerSetup(_) => MSG_SERVER_SETUP
    case Goaway(_) => MSG_GOAWAY
    case MaxRequestId(_) => MSG_MAX_REQUEST_ID
    case RequestsBlocked(_) => MSG_REQUESTS_BLOCKED
    case RequestOk(_, _) => MSG_REQUEST_OK
    case RequestError(_, _, _, _) => MSG_REQUEST_ERROR
    case Subscribe(_, _, _, _) => MSG_SUBSCRIBE
    case SubscribeOk(_, _, _, _) => MSG_SUBSCRIBE_OK
    case RequestUpdate(_, _, _) => MSG_REQUEST_UPDATE
    case Unsubscribe(_) => MSG_UNSUBSCRIBE
    case Publish(_, _, _, _, _, _) => MSG_PUBLISH
    case PublishOk(_, _) => MSG_PUBLISH_OK
    case PublishDone(_, _, _, _) => MSG_PUBLISH_DONE
    case Fetch(_, _, _) => MSG_FETCH
    case FetchOk(_, _, _, _, _) => MSG_FETCH_OK
    case FetchCancel(_) => MSG_FETCH_CANCEL
    case TrackStatus(_, _, _, _) => MSG_TRACK_STATUS
    case PublishNamespace(_, _, _) => MSG_PUBLISH_NAMESPACE
    case NamespaceMsg(_) => MSG_NAMESPACE
    case PublishNamespaceDone(_) => MSG_PUBLISH_NAMESPACE_DONE
    case NamespaceDone(_) => MSG_NAMESPACE_DONE
    case PublishNamespaceCancel(_, _, _) => MSG_PUBLISH_NAMESPACE_CANCEL
    case SubscribeNamespace(_, _, _, _) => MSG_SUBSCRIBE_NAMESPACE
  }

  /** The three forms of FETCH: type code, then what identifies the objects. */
  function FetchFields(f: FetchType): seq<Field> {
    match f
    case Standalone(ns, name, start, end) =>
      [Number(1), Space(ns), Name(name), Number(start.group), Number(start.object_), Number(end.group),
       Number(end.object_)]
    case RelativeJoining(id, start) => [Number(2), Number(id), Number(start)]
    case AbsoluteJoining(id, start) => [Number(3), Number(id), Number(start)]
  }

  /** The payload of each message, field by field. */
  function Fields(m: ControlMessage): seq<Field> {
    match m
    case ClientSetup(ps) => [Params(ps)]
    case ServerSetup(ps) => [Params(ps)]
    case Goaway(uri) => [Uri(uri)]
    case MaxRequestId(n) => [Number(n)]
    case RequestsBlocked(n) => [Number(n)]
    case RequestOk(id, ps) => [Number(id), Params(ps)]
    case RequestError(id, code, retry, reason) => [Number(id), Number(code), Number(retry), Reason(reason)]
    case Subscribe(id, ns, name, ps) => [Number(id), Space(ns), Name(name), Params(ps)]
    case SubscribeOk(id, alias, ps, exts) => [Number(id), Number(alias), Params(ps), Exts(exts)]
    case RequestUpdate(id, existing, ps) => [Number(id), Number(existing), Params(ps)]
    case Unsubscribe(id) => [Number(id)]
    case Publish(id, ns, name, alias, ps, exts) =>
      [Number(id), Space(ns), Name(name), Number(alias), Params(ps), Exts(exts)]
    case PublishOk(id, ps) => [Number(id), Params(ps)]
    case PublishDone(id, status, count, reason) => [Number(id), Number(status), Number(count), Reason(reason)]
    case Fetch(id, f, ps) => [Number(id)] + FetchFields(f) + [Params(ps)]
    case FetchOk(id, last, end, ps, exts) =>
      [Number(id), Flag(last), Number(end.group), Number(end.object_), Params(ps), Exts(exts)]
    case FetchCancel(id) => [Number(id)]
    case TrackStatus(id, ns, name, ps) => [Number(id), Space(ns), Name(name), Params(ps)]
    case PublishNamespace(id, ns, ps) => [Number(id), Space(ns), Params(ps)]
    case NamespaceMsg(suffix) => [Prefix(suffix)]
    case PublishNamespaceDone(id) => [Number(id)]
    case NamespaceDone(suffix) => [Prefix(suffix)]
    case PublishNamespaceCancel(id, code, reason) => [Number(id), Number(code), Reason(reason)]
    case SubscribeNamespace(id, prefix, o, ps) => [Number(id), Prefix(prefix), Options(o), Params(ps)]
  }

  function FetchKinds(code: nat): Option<seq<Kind>> {
    if code == 1 then Some([KSpace, KName, KNumber, KNumber, KNumber, KNumber, KParams])
    else if code == 2 || code == 3 then Some([KNumber, KNumber, KParams])
    else None
  }

  /** The fields a payload of the given type consists of; of FETCH only those before its form is known. */
  function Layout(code: nat): Option<seq<Kind>> {
    if code == MSG_CLIENT_SETUP || code == MSG_SERVER_SETUP then Some([KParams])
    else if code == MSG_GOAWAY then Some([KUri])
    else if code == MSG_MAX_REQUEST_ID || code == MSG_REQUESTS_BLOCKED || code == MSG_UNSUBSCRIBE
         || code == MSG_FETCH_CANCEL || code == MSG_PUBLISH_NAMESPACE_DONE then Some([KNumber])
    else if code == MSG_REQUEST_OK || code == MSG_PUBLISH_OK then Some([KNumber, KParams])
    else if code == MSG_REQUEST_ERROR || code == MSG_PUBLISH_DONE then Some([KNumber, KNumber, KNumber, KReason])
    else if code == MSG_SUBSCRIBE || code == MSG_TRACK_STATUS then Some([KNumber, KSpace, KName, KParams])
    else if code == MSG_SUBSCRIBE_OK then Some([KNumber, KNumber, KParams, KExts])
    else if code == MSG_REQUEST_UPDATE then Some([KNumber, KNumber, KParams])
    else if code == MSG_PUBLISH then Some([KNumber, KSpace, KName, KNumber, KParams, KExts])
    else if code == MSG_FETCH then Some([KNumber, KNumber])
    else if code == MSG_FETCH_OK then Some([KNumber, KFlag, KNumber, KNumber, KParams, KExts])
    else if code == MSG_PUBLISH_NAMESPACE then Some([KNumber, KSpace, KParams])
    else if code == MSG_NAMESPACE || code == MSG_NAMESPACE_DONE then Some([KPrefix])
    else if code == MSG_PUBLISH_NAMESPACE_CANCEL then Some([KNumber, KNumber, KReason])
    else if code == MSG_SUBSCRIBE_NAMESPACE then Some([KNumber, KPrefix, KOptions, KParams])
    else None
  }

  /** The fields have the shape of a message of this type. */
  predicate Shaped(code: nat, fs: seq<Field>) {
    if code == MSG_FETCH then
      |fs| >= 2 && fs[0].Number? && fs[1].Number? && FetchKinds(fs[1].n).Some?
      && Kinds(fs[2..]) == FetchKinds(fs[1].n).value
    else Layout(code) == Some(Kinds(fs))
  }

  function BuildFetch(fs: seq<Field>): ControlMessage
    requires Shaped(MSG_FETCH, fs)
  {
    var ks := Kinds(fs[2..]);
    if fs[1].n == 1 then
      assert forall i :: 0 <= i < 7 ==> KindOf(fs[2 + i]) == ks[i];
      Fetch(fs[0].n, Standalone(fs[2].ns, fs[3].name, Location(fs[4].n, fs[5].n), Location(fs[6].n, fs[7].n)),
            fs[8].params)
    else
      assert forall i :: 0 <= i < 3 ==> KindOf(fs[2 + i]) == ks[i];
      Fetch(fs[0].n, if fs[1].n == 2 then RelativeJoining(fs[2].n, fs[3].n) else AbsoluteJoining(fs[2].n, fs[3].n),
            fs[4].params)
  }

  /** The message of a given type with given fields. */
  function Build(code: nat, fs: seq<Field>): ControlMessage
    requires Shaped(code, fs)
  {
    assert code != MSG_FETCH ==> forall i :: 0 <= i < |fs| ==> KindOf(fs[i]) == Layout(code).value[i];
    if code == MSG_CLIENT_SETUP then ClientSetup(fs[0].params)
    else if code == MSG_SERVER_SETUP then ServerSetup(fs[0].params)
    else if code == MSG_GOAWAY then Goaway(fs[0].uri)
    else if code == MSG_MAX_REQUEST_ID then MaxRequestId(fs[0].n)
    else if code == MSG_REQUESTS_BLOCKED then RequestsBlocked(fs[0].n)
    else if code == MSG_UNSUBSCRIBE then Unsubscribe(fs[0].n)
    else if code == MSG_FETCH_CANCEL then FetchCancel(fs[0].n)
    else if code == MSG_PUBLISH_NAMESPACE_DONE then PublishNamespaceDone(fs[0].n)
    else if code == MSG_REQUEST_OK then RequestOk(fs[0].n, fs[1].params)
    else if code == MSG_PUBLISH_OK then PublishOk(fs[0].n, fs[1].params)
    else if code == MSG_REQUEST_ERROR then RequestError(fs[0].n, fs[1].n, fs[2].n, fs[3].text)
    else if code == MSG_PUBLISH_DONE then PublishDone(fs[0].n, fs[1].n, fs[2].n, fs[3].text)
    else if code == MSG_SUBSCRIBE then Subscribe(fs[0].n, fs[1].ns, fs[2].name, fs[3].params)
    else if code == MSG_TRACK_STATUS then TrackStatus(fs[0].n, fs[1].ns, fs[2].name, fs[3].params)
    else if code == MSG_SUBSCRIBE_OK then SubscribeOk(fs[0].n, fs[1].n, fs[2].params, fs[3].exts)
    else if code == MSG_REQUEST_UPDATE then RequestUpdate(fs[0].n, fs[1].n, fs[2].params)
    else if code == MSG_PUBLISH then Publish(fs[0].n, fs[1].ns, fs[2].name, fs[3].n, fs[4].params, fs[5].exts)
    else if code == MSG_FETCH then BuildFetch(fs)
    else if code == MSG_FETCH_OK then FetchOk(fs[0].n, fs[1].flag, Location(fs[2].n, fs[3].n), fs[4].params, fs[5].exts)
    else if code == MSG_PUBLISH_NAMESPACE then PublishNamespace(fs[0].n, fs[1].ns, fs[2].params)
    else if code == MSG_NAMESPACE then NamespaceMsg(fs[0].prefix)
    else if code == MSG_NAMESPACE_DONE then NamespaceDone(fs[0].prefix)
    else if code == MSG_PUBLISH_NAMESPACE_CANCEL then PublishNamespaceCancel(fs[0].n, fs[1].n, fs[2].text)
    else SubscribeNamespace(fs[0].n, fs[1].prefix, fs[2].option, fs[3].params)
  }
}
