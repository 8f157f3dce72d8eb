/** HTTP/3 frames, SETTINGS lists, and the incremental frame parser (`h3/frame.rs`). */
module H3Frames {
  import opened MoqTypes
  import opened Varint
  import opened CodecErrors
  import opened WireForms
  import opened StreamParsers
  import opened Envelopes

  /** Decoding a frame never fails otherwise than by lack of bytes. */
  function FrameStep(b: Bytes): Step<Envelope, Error> {
    match DecEnvelope(b)
    case Err(_) => NeedMore
    case Ok((frame, rest)) => Item(frame, rest)
  }

  lemma FrameStepStable()
    ensures Stable<Envelope, Error>(FrameStep)
  {
    forall b: Bytes, more: Bytes | FrameStep(b).Item?
      ensures FrameStep(b + more) == Item(FrameStep(b).item, FrameStep(b).rest + more)
    {
      EnvelopeGrows(b, more);
    }
  }

  lemma {:induction false} FramesNeverBreak(b: Bytes)
    requires Consuming<Envelope, Error>(FrameStep)
    ensures !Broken(Drain<Envelope, Error>(FrameStep, b).0)
    decreases |b|
  {
    if FrameStep(b).Item? {
      FramesNeverBreak(FrameStep(b).rest);
      var rs := Drain<Envelope, Error>(FrameStep, FrameStep(b).rest).0;
      assert Drain<Envelope, Error>(FrameStep, b).0 == [Got(FrameStep(b).item)] + rs;
    }
  }

  /** The frames found and the bytes kept do not depend on how the stream is cut into feeds. */
  lemma FrameChunking(chunks: seq<Bytes>)
    ensures Consuming<Envelope, Error>(FrameStep)
    ensures FeedAll<Envelope, Error>(FrameStep, [], chunks) == Drain<Envelope, Error>(FrameStep, Joined(chunks))
  {
    FrameStepStable();
    FramesNeverBreak([] + Joined(chunks));
    assert [] + Joined(chunks) == Joined(chunks);
    ChunkingIndependent<Envelope, Error>(FrameStep, [], chunks);
  }

  predicate Writable(frames: seq<Envelope>) {
    forall i :: 0 <= i < |frames| ==> EncEnvelope(frames[i]).Ok?
  }

  function EncFrames(frames: seq<Envelope>): seq<Bytes>
    requires Writable(frames)
  {
    seq(|frames|, i requires 0 <= i < |frames| => EncEnvelope(frames[i]).value)
  }

  /** Frames written one after the other are read back, also when the last one is not yet complete. */
  lemma FramesRecovered(frames: seq<Envelope>, last: Envelope, k: nat)
    requires Writable(frames) && EncEnvelope(last).Ok? && k < |EncEnvelope(last).value|
    ensures Consuming<Envelope, Error>(FrameStep)
    ensures var tail := EncEnvelope(last).value[..k];
            Drain<Envelope, Error>(FrameStep, Joined(EncFrames(frames)) + tail)
            == (GotAll<Envelope, Error>(frames), tail)
  {
    FrameStepStable();
    forall e: Envelope | EncEnvelope(e).Ok? ensures Encodes<Envelope, Error>(FrameStep, EncEnvelope(e).value, e) {
      forall rest: Bytes ensures FrameStep(EncEnvelope(e).value + rest) == Item(e, rest) { EnvelopeBack(e, rest); }
    }
    PrefixNeedsMore<Envelope, Error>(FrameStep, EncEnvelope(last).value, last, k);
    ListRecovered<Envelope, Error>(FrameStep, frames, EncFrames(frames), EncEnvelope(last).value[..k]);
  }

  // ---- SETTINGS ----

  type Settings = seq<(nat, nat)>

  function EncSettings(settings: Settings): Result<Bytes> {
    if settings == [] then Ok([])
    else
      var id :- PutVarint(settings[0].0);
      var value :- PutVarint(settings[0].1);
      var rest :- EncSettings(settings[1..]);
      Ok(id + value + rest)
  }

  function DecSettings(payload: Bytes): Result<Settings>
    decreases |payload|
  {
    if payload == [] then Ok([])
    else
      var (id, afterId) :- GetVarint(payload);
      var (value, rest) :- GetVarint(afterId);
      var more :- DecSettings(rest);
      Ok([(id, value)] + more)
  }

  lemma {:induction false} SettingsBack(settings: Settings)
    requires EncSettings(settings).Ok?
    ensures DecSettings(EncSettings(settings).value) == Ok(settings)
  {
    if settings != [] {
      var id, value := PutVarint(settings[0].0).value, PutVarint(settings[0].1).value;
      var rest := EncSettings(settings[1..]).value;
      assert id + value + rest == id + (value + rest);
      VarintBack(settings[0].0, value + rest);
      VarintBack(settings[0].1, rest);
      SettingsBack(settings[1..]);
      assert [(settings[0].0, settings[0].1)] + settings[1..] == settings;
    }
  }

  function SettingInts(settings: Settings): seq<Result<Bytes>> {
    if settings == [] then [] else [Int(settings[0].0), Int(settings[0].1)] + SettingInts(settings[1..])
  }

  function SettingForms(settings: Settings): seq<Form> {
    if settings == [] then [] else [IntL(settings[0].0), IntL(settings[0].1)] + SettingForms(settings[1..])
  }

  /** Written are identifier and value of each setting, in this order, as shortest varints. */
  lemma {:induction false} SettingsWire(settings: Settings)
    ensures EncSettings(settings) == Cat(SettingInts(settings))
  {
    if settings != [] {
      var (id, value) := settings[0];
      IntIs(id);
      IntIs(value);
      SettingsWire(settings[1..]);
      CatAppend([Int(id), Int(value)], SettingInts(settings[1..]));
      CatTwo(Int(id), Int(value));
      CatTwo(Cat([Int(id), Int(value)]), Cat(SettingInts(settings[1..])));
    }
  }

  /** Read is the same with any length of the varints, and nothing else. */
  lemma SettingsIff(payload: Bytes, settings: Settings)
    ensures DecSettings(payload) == Ok(settings) <==> Is(SettingForms(settings), payload)
  {
    if DecSettings(payload) == Ok(settings) { ReadSettings(payload, settings); }
    if Is(SettingForms(settings), payload) { SettingsRead(payload, settings); }
  }

  lemma NeverNone(payload: Bytes)
    requires payload != [] && DecSettings(payload).Ok?
    ensures DecSettings(payload).value != []
  {
  }

  /** The first setting read, and the others. */
  lemma SettingsStep(payload: Bytes, settings: Settings)
    requires settings != [] && DecSettings(payload) == Ok(settings)
    ensures GetVarint(payload).Ok? && GetVarint(payload).value.0 == settings[0].0
    ensures var afterId := GetVarint(payload).value.1;
            && GetVarint(afterId).Ok? && GetVarint(afterId).value.0 == settings[0].1
            && DecSettings(GetVarint(afterId).value.1) == Ok(settings[1..])
  {
    var rest := GetVarint(GetVarint(payload).value.1).value.1;
    assert settings == [settings[0]] + DecSettings(rest).value;
    assert settings[1..] == DecSettings(rest).value;
  }

  lemma SettingsTogether(payload: Bytes, afterId: Bytes, rest: Bytes, settings: Settings)
    requires settings != [] && GetVarint(payload) == Ok((settings[0].0, afterId))
    requires GetVarint(afterId) == Ok((settings[0].1, rest)) && DecSettings(rest) == Ok(settings[1..])
    ensures DecSettings(payload) == Ok(settings)
  {
    assert [(settings[0].0, settings[0].1)] + settings[1..] == settings;
  }

  lemma FormsOfFirst(settings: Settings)
    requires settings != []
    ensures SettingForms(settings) == [IntL(settings[0].0)] + ([IntL(settings[0].1)] + SettingForms(settings[1..]))
  {
  }

  lemma {:induction false} ReadSettings(payload: Bytes, settings: Settings)
    requires DecSettings(payload) == Ok(settings)
    ensures Is(SettingForms(settings), payload)
    decreases |settings|
  {
    if settings == [] {
      if payload != [] { NeverNone(payload); }
    } else {
      SettingsStep(payload, settings);
      var afterId := GetVarint(payload).value.1;
      var rest := GetVarint(afterId).value.1;
      ReadInt(payload);
      ReadInt(afterId);
      ReadSettings(rest, settings[1..]);
      IsCons(IntL(settings[0].1), SettingForms(settings[1..]), Taken(afterId, rest), rest);
      var others := [IntL(settings[0].1)] + SettingForms(settings[1..]);
      IsCons(IntL(settings[0].0), others, Taken(payload, afterId), afterId);
      FormsOfFirst(settings);
    }
  }

  lemma {:induction false} SettingsRead(payload: Bytes, settings: Settings)
    requires Is(SettingForms(settings), payload)
    ensures DecSettings(payload) == Ok(settings)
    decreases |settings|
  {
    if settings != [] {
      FormsOfFirst(settings);
      var k := IsFirst(IntL(settings[0].0), [IntL(settings[0].1)] + SettingForms(settings[1..]), payload);
      var p := payload[k..];
      var j := IsFirst(IntL(settings[0].1), SettingForms(settings[1..]), p);
      IntHead(payload, k, settings[0].0);
      IntHead(p, j, settings[0].1);
      SettingsRead(p[j..], settings[1..]);
      SettingsTogether(payload, p, p[j..], settings);
    }
  }

  // ---- As the source runs it ----

  method EncodeFrame(frame: Envelope, buf: Bytes) returns (r: Result<Bytes>)
    ensures r == match EncEnvelope(frame) case Ok(b) => Ok(buf + b) case Err(e) => Err(e)
  {
    var ok1, head := EncodeVarint(buf, frame.kind);
    if !ok1 {
      return Err(VarintOverflow);
    }
    var ok2, mid := EncodeVarint(head, |frame.payload|);
    if !ok2 {
      return Err(VarintOverflow);
    }
    assert mid + frame.payload == buf + EncEnvelope(frame).value;
    return Ok(mid + frame.payload);
  }

  /** The varint at offset, and the offset after it. */
  method VarintAt(buf: Bytes, offset: nat) returns (r: Option<(nat, nat)>)
    requires offset <= |buf|
    ensures r.None? ==> GetVarint(buf[offset..]) == Err(BufferTooShort)
    ensures r.Some? ==> offset < r.value.1 <= |buf| && GetVarint(buf[offset..]) == Ok((r.value.0, buf[r.value.1..]))
  {
    var d := DecodeVarint(buf[offset..]);
    if d.None? {
      return None;
    }
    VarintMinimal(buf[offset..]);
    assert buf[offset..][d.value.1..] == buf[offset + d.value.1..];
    return Some((d.value.0, offset + d.value.1));
  }

  /** A frame and the number of bytes it takes, or None if bytes are missing. */
  method DecodeFrame(buf: Bytes) returns (r: Option<(Envelope, nat)>)
    ensures DecEnvelope(buf).Err? ==> r.None?
    ensures DecEnvelope(buf).Ok? ==>
              r.Some? && r.value.0 == DecEnvelope(buf).value.0 && r.value.1 <= |buf|
              && buf[r.value.1..] == DecEnvelope(buf).value.1
  {
    assert buf[0..] == buf;
    var t := VarintAt(buf, 0);
    if t.None? {
      return None;
    }
    var l := VarintAt(buf, t.value.1);
    if l.None? {
      return None;
    }
    var (len, offset) := l.value;
    if |buf| < offset + len {
      return None;
    }
    assert buf[offset..][..len] == buf[offset..offset + len] && buf[offset..][len..] == buf[offset + len..];
    return Some((Envelope(t.value.0, buf[offset..offset + len]), offset + len));
  }

  method DecodeSettings(payload: Bytes) returns (r: Result<Settings>)
    ensures r == DecSettings(payload)
  {
    var settings: Settings := [];
    var offset := 0;
    SettingsFromStart(payload);
    assert payload[0..] == payload;
    while offset < |payload|
      invariant offset <= |payload| && SettingsFrom(payload[offset..], settings) == DecSettings(payload)
    {
      var id := VarintAt(payload, offset);
      if id.None? {
        return Err(BufferTooShort);
      }
      var value := VarintAt(payload, id.value.1);
      if value.None? {
        return Err(BufferTooShort);
      }
      offset := value.value.1;
      settings := settings + [(id.value.0, value.value.0)];
    }
    return Ok(settings);
  }

  ghost function SettingsFrom(payload: Bytes, done: Settings): Result<Settings>
    decreases |payload|
  {
    if payload == [] then Ok(done)
    else
      var (id, afterId) :- GetVarint(payload);
      var (value, rest) :- GetVarint(afterId);
      SettingsFrom(rest, done + [(id, value)])
  }

  lemma OneMore(done: Settings, x: (nat, nat), more: Settings)
    ensures done + ([x] + more) == done + [x] + more
  {
  }

  lemma {:induction false} SettingsFromMeans(payload: Bytes, done: Settings)
    ensures SettingsFrom(payload, done)
            == (if DecSettings(payload).Err? then DecSettings(payload) else Ok(done + DecSettings(payload).value))
    decreases |payload|
  {
    if payload == [] {
      assert done + [] == done;
    } else if GetVarint(payload).Ok? && GetVarint(GetVarint(payload).value.1).Ok? {
      var (id, afterId) := GetVarint(payload).value;
      var (value, rest) := GetVarint(afterId).value;
      SettingsFromMeans(rest, done + [(id, value)]);
      if DecSettings(rest).Ok? { OneMore(done, (id, value), DecSettings(rest).value); }
    }
  }

  lemma SettingsFromStart(payload: Bytes)
    ensures SettingsFrom(payload, []) == DecSettings(payload)
  {
    SettingsFromMeans(payload, []);
    if DecSettings(payload).Ok? { assert [] + DecSettings(payload).value == DecSettings(payload).value; }
  }

  class FrameParser {
    var buf: Bytes

    constructor ()
      ensures buf == []
    {
      buf := [];
    }

    /** Take in data and give out every frame that is now complete. */
    method Feed(data: Bytes) returns (results: seq<Envelope>)
      modifies this
      ensures Consuming<Envelope, Error>(FrameStep)
      ensures (GotAll<Envelope, Error>(results), buf) == Drain<Envelope, Error>(FrameStep, old(buf) + data)
    {
      FrameStepStable();
      buf := buf + data;
      results := [];
      ghost var all := Drain<Envelope, Error>(FrameStep, buf);
      GotNothing(all.0);
      while true
        invariant all == (GotAll<Envelope, Error>(results) + Drain<Envelope, Error>(FrameStep, buf).0,
                          Drain<Envelope, Error>(FrameStep, buf).1)
        decreases |buf|
      {
        var d := DecodeFrame(buf);
        if d.None? {
          break;
        }
        GotSnoc(results, d.value.0, Drain<Envelope, Error>(FrameStep, FrameStep(buf).rest).0);
        buf := buf[d.value.1..];
        results := results + [d.value.0];
      }
      assert GotAll<Envelope, Error>(results) + [] == GotAll<Envelope, Error>(results);
    }
  }

  lemma GotNothing(rs: seq<Outcome<Envelope, Error>>)
    ensures GotAll<Envelope, Error>([]) + rs == rs
  {
  }

  lemma {:induction false} GotSnoc(xs: seq<Envelope>, x: Envelope, rs: seq<Outcome<Envelope, Error>>)
    ensures GotAll<Envelope, Error>(xs + [x]) + rs == GotAll<Envelope, Error>(xs) + ([Got(x)] + rs)
  {
    if xs == [] {
      assert xs + [x] == [x] && [x][1..] == [];
    } else {
      assert (xs + [x])[1..] == xs[1..] + [x];
      GotSnoc(xs[1..], x, rs);
      var first := [Outcome<Envelope, Error>.Got(xs[0])];
      var a, b := GotAll<Envelope, Error>(xs[1..] + [x]), GotAll<Envelope, Error>(xs[1..]);
      assert first + a + rs == first + (a + rs);
      assert first + b + ([Got(x)] + rs) == first + (b + ([Got(x)] + rs));
    }
  }
}
