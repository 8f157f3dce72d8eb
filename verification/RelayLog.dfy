/** The relay's observable history, and what can be read off it: nothing here looks at the maps. */
module RelayLog {
  import opened RelayState

  datatype Obs = Rx(event: Event) | Tx(output: Output)

  /** What a subscriber hears about one of its requests. */
  datatype Reply = Accepted(alias: nat) | Failed | Done

  /** What a publisher hears about one request id of the relay. */
  datatype LegMsg = Asked(track: TrackKey) | Withdrew

  function Sent(outs: seq<Output>): seq<Obs> {
    seq(|outs|, i requires 0 <= i < |outs| => Tx(outs[i]))
  }

  /** Everything a view extracts from a log, in order. */
  function Collect<T>(log: seq<Obs>, view: Obs -> seq<T>): seq<T> {
    if log == [] then [] else Collect(log[..|log|-1], view) + view(log[|log|-1])
  }

  lemma CollectSnoc<T>(log: seq<Obs>, o: Obs, view: Obs -> seq<T>)
    ensures Collect(log + [o], view) == Collect(log, view) + view(o)
  {
    assert (log + [o])[..|log|] == log;
  }

  // ---- Views ----

  predicate SentTo(o: Obs, s: SessionKey) {
    o.Tx? && o.output.Send? && o.output.session == s
  }

  function ReplyIn(o: Obs, k: RequestKey): seq<Reply> {
    if !SentTo(o, k.session) then [] else
    match o.output.message
    case SubscribeOk(id, alias, _, _) => if id == k.id then [Accepted(alias)] else []
    case RequestError(id, _, _, _) => if id == k.id then [Failed] else []
    case PublishDone(id, _, _, _) => if id == k.id then [Done] else []
    case _ => []
  }

  function LegMsgIn(o: Obs, x: RequestKey): seq<LegMsg> {
    if !SentTo(o, x.session) then [] else
    match o.output.message
    case Subscribe(id, ns, name, _) => if id == x.id then [Asked(TrackKey(ns, name))] else []
    case Unsubscribe(id) => if id == x.id then [Withdrew] else []
    case _ => []
  }

  function IssuedIn(o: Obs, p: SessionKey): seq<nat> {
    if SentTo(o, p) && o.output.message.Subscribe? then [o.output.message.requestId] else []
  }

  function AliasIn(o: Obs, s: SessionKey): seq<nat> {
    if SentTo(o, s) && o.output.message.SubscribeOk? then [o.output.message.trackAlias] else []
  }

  function ObjectIn(o: Obs, s: SessionKey, alias: nat): seq<ObjectBody> {
    if o.Tx? && o.output.SendObject? && o.output.session == s && o.output.alias == alias then [o.output.body] else []
  }

  function ReplyView(k: RequestKey): Obs -> seq<Reply> { (o: Obs) => ReplyIn(o, k) }
  function LegView(x: RequestKey): Obs -> seq<LegMsg> { (o: Obs) => LegMsgIn(o, x) }
  function IssuedView(p: SessionKey): Obs -> seq<nat> { (o: Obs) => IssuedIn(o, p) }
  function AliasView(s: SessionKey): Obs -> seq<nat> { (o: Obs) => AliasIn(o, s) }
  function ObjectView(s: SessionKey, alias: nat): Obs -> seq<ObjectBody> { (o: Obs) => ObjectIn(o, s, alias) }

  /** Replies carrying the id of one request, in order. */
  function Replies(log: seq<Obs>, k: RequestKey): seq<Reply> { Collect(log, ReplyView(k)) }

  /** SUBSCRIBE and UNSUBSCRIBE messages sent upstream with one id, in order. */
  function LegMsgs(log: seq<Obs>, x: RequestKey): seq<LegMsg> { Collect(log, LegView(x)) }

  /** Ids of the SUBSCRIBE messages sent to p, in order. */
  function IssuedIds(log: seq<Obs>, p: SessionKey): seq<nat> { Collect(log, IssuedView(p)) }

  /** Aliases announced to s in SUBSCRIBE_OK, in order. */
  function Aliases(log: seq<Obs>, s: SessionKey): seq<nat> { Collect(log, AliasView(s)) }

  /** Objects sent to s under one alias, in order. */
  function Delivered(log: seq<Obs>, s: SessionKey, alias: nat): seq<ObjectBody> { Collect(log, ObjectView(s, alias)) }

  // ---- Grammars (section 5.1 of draft-ietf-moq-transport-16) ----

  predicate ReplyGrammar(rs: seq<Reply>) {
    || rs == []
    || rs == [Failed]
    || (|rs| == 1 && rs[0].Accepted?)
    || (|rs| == 2 && rs[0].Accepted? && rs[1].Done?)
  }

  predicate LegGrammar(ms: seq<LegMsg>) {
    || ms == []
    || (|ms| == 1 && ms[0].Asked?)
    || (|ms| == 2 && ms[0].Asked? && ms[1].Withdrew?)
  }

  /** The publisher p announced the alias in answer to a SUBSCRIBE for track t. */
  ghost predicate AnsweredWith(log: seq<Obs>, p: SessionKey, r: nat, alias: nat, t: TrackKey) {
    exists j :: 0 <= j < |log| && AnswerAt(log, j, p, r, alias) && Asked(t) in LegMsgs(log[..j], RequestKey(p, r))
  }

  predicate AnswerAt(log: seq<Obs>, j: nat, p: SessionKey, r: nat, alias: nat)
    requires j < |log|
  {
    && log[j].Rx? && log[j].event.Control? && log[j].event.session == p && log[j].event.message.SubscribeOk?
    && log[j].event.message.requestId == r && log[j].event.message.trackAlias == alias
  }

  lemma AnsweredWithGrows(log: seq<Obs>, more: seq<Obs>, p: SessionKey, r: nat, alias: nat, t: TrackKey)
    requires AnsweredWith(log, p, r, alias, t)
    ensures AnsweredWith(log + more, p, r, alias, t)
  {
    var j :| 0 <= j < |log| && AnswerAt(log, j, p, r, alias) && Asked(t) in LegMsgs(log[..j], RequestKey(p, r));
    assert (log + more)[..j] == log[..j];
    assert AnswerAt(log + more, j, p, r, alias);
  }

  /** The publisher p announced the alias in answer to some SUBSCRIBE for track t. */
  ghost predicate BoundByAnswer(log: seq<Obs>, p: SessionKey, alias: nat, t: TrackKey) {
    exists r :: AnsweredWith(log, p, r, alias, t)
  }

  lemma AnswerLasts(log: seq<Obs>, more: seq<Obs>, p: SessionKey, alias: nat, t: TrackKey)
    requires BoundByAnswer(log, p, alias, t)
    ensures BoundByAnswer(log + more, p, alias, t)
  {
    var r :| AnsweredWith(log, p, r, alias, t);
    AnsweredWithGrows(log, more, p, r, alias, t);
  }

  /** Some publisher has accepted a SUBSCRIBE of the relay for track t. */
  ghost predicate TrackAnswered(log: seq<Obs>, t: TrackKey) {
    exists p, r, alias :: AnsweredWith(log, p, r, alias, t)
  }

  /** The request k is a SUBSCRIBE naming track t. */
  predicate AsksFor(o: Obs, k: RequestKey, t: TrackKey) {
    && o.Rx? && o.event.Control? && o.event.session == k.session && o.event.message.Subscribe?
    && o.event.message.requestId == k.id
    && t == TrackKey(o.event.message.trackNamespace, o.event.message.trackName)
  }

  lemma TrackAnsweredGrows(log: seq<Obs>, more: seq<Obs>, t: TrackKey)
    requires TrackAnswered(log, t)
    ensures TrackAnswered(log + more, t)
  {
    var p, r, alias :| AnsweredWith(log, p, r, alias, t);
    AnsweredWithGrows(log, more, p, r, alias, t);
  }
}
