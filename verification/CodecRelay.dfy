/** What the relay may take for granted about the messages the codec hands it. */
module CodecRelay {
  import opened MoqTypes
  import opened CodecErrors
  import opened CodecChains
  import opened CodecKeyValues
  import opened CodecFields
  import opened CodecMessages
  import opened CodecFraming
  import opened CodecTheorems
  import State = RelayState
  import Handlers = RelayHandlers
  import Runs = RelayRuns
  import Scans = RelayScans

  predicate NumbersFit(ps: seq<KeyValuePair>) {
    forall i :: 0 <= i < |ps| && ps[i].value.Varint? ==> ps[i].value.number <= MAX_VARINT
  }

  lemma {:induction false} WrittenNumbersFit(prev: nat, ps: seq<KeyValuePair>)
    requires EncChain(PairCodec(), prev, ps).Ok?
    ensures NumbersFit(ps)
    decreases |ps|
  {
    if ps != [] {
      WrittenNumbersFit(ps[0].key, ps[1..]);
      if ps[0].value.Varint? { VarintFits(ps[0].value.number); }
      assert ps == [ps[0]] + ps[1..];
    }
  }

  /** The relay's assumption about wire integers holds of every decoded message. */
  lemma DecodedIsWireOk(b: Bytes)
    requires DecMessage(b).Ok?
    ensures Handlers.WireOk(DecMessage(b).value.0)
  {
    CanonicalisationNeverGrows(b, []);
    var m := DecMessage(b).value.0;
    WrittenIsWireOk(m);
  }

  lemma FirstFieldWritten(fs: seq<Field>)
    requires fs != [] && EncFields(fs).Ok?
    ensures EncField(fs[0]).Ok?
  {
  }

  lemma WrittenIsWireOk(m: ControlMessage)
    requires EncFields(Fields(m)).Ok? && Canonical(m) == m
    ensures Handlers.WireOk(m)
  {
    if m.MaxRequestId? {
      FirstFieldWritten([Number(m.maxRequestId)]);
      VarintFits(m.maxRequestId);
    } else if m.ServerSetup? {
      FirstFieldWritten([Params(m.parameters)]);
      WrittenNumbersFit(0, Sorted(m.parameters));
    }
  }

  /** The message was decoded from some bytes. */
  ghost predicate Decoded(m: ControlMessage) {
    exists b: Bytes :: DecMessage(b).Ok? && DecMessage(b).value.0 == m
  }

  /** No PUBLISH_NAMESPACE for the empty namespace comes through the decoder. */
  lemma DecodedNamespaceHasField(m: ControlMessage)
    requires Decoded(m) && m.PublishNamespace?
    ensures m.trackNamespace != []
  {
    var b: Bytes :| DecMessage(b).Ok? && DecMessage(b).value.0 == m;
    CanonicalisationNeverGrows(b, []);
  }

  /** So on decoded messages announcing and subscribing bring the same publishers to every track. */
  lemma ScansAgreeOverTheWire(cfg: State.RelayConfig, run: seq<Runs.Stimulus>, s: State.SessionKey, t: State.TrackKey)
    requires Runs.ConfigOk(cfg) && Runs.ValidRun(cfg, run) && s in Runs.Reach(cfg, run).st.sessions
    requires forall i :: 0 <= i < |run| && run[i].event.Control? ==> Decoded(run[i].event.message)
    ensures Scans.Offered(Runs.Reach(cfg, run).st, s, t, [t])
            <==> s in State.MatchPublishers(Runs.Reach(cfg, run).st, t.namespace)
  {
    forall i | 0 <= i < |run| ensures !Scans.Announces(run[i].event, s, []) {
      if Scans.Announces(run[i].event, s, []) { DecodedNamespaceHasField(run[i].event.message); }
    }
    Scans.ScansAgreeOnProperNamespaces(cfg, run, s, t);
  }

  // ---- Parameter lookup ----

  lemma {:induction false} LookupByKey(ps: Parameters, key: nat)
    ensures State.VarintParameter(ps, key) == State.VarintParameter(WithKey(ps, key), key)
  {
    if ps != [] {
      LookupByKey(ps[1..], key);
      var rest := WithKey(ps[1..], key);
      assert [] + rest == rest;
      assert ([ps[0]] + rest)[1..] == rest;
    }
  }

  /** Parameters that are equal for the source answer every lookup alike; in particular sorting, and so
      a trip over the wire, changes no answer. */
  lemma LookupAgrees(a: Parameters, b: Parameters, key: nat)
    requires Sorted(a) == Sorted(b)
    ensures State.VarintParameter(a, key) == State.VarintParameter(b, key)
  {
    EqualIffSamePerKey(a, b);
    LookupByKey(a, key);
    LookupByKey(b, key);
  }
}
