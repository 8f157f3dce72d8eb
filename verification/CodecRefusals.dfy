/** Which error the decoder reports: for every kind of it, exactly when. */
module CodecRefusals {
  import opened MoqTypes
  import opened CodecErrors
  import opened CodecMessages
  import opened CodecFraming
  import opened CodecShortage
  import opened CodecGrammar

  /** The types of the 24 messages. */
  predicate Known(code: nat) {
    code in {0x2, 0x3, 0x4, 0x5, 0x6, 0x7, 0x8, 0x9, 0xA, 0xB, 0xC, 0xD, 0xE, 0x10, 0x11, 0x15, 0x16, 0x17, 0x18,
             0x1A, 0x1D, 0x1E, 0x20, 0x21}
  }

  ghost predicate Accepted(b: Bytes) { exists m, n: nat :: n <= |b| && IsMessage(b[..n], m) }

  lemma KnownLayouts(code: nat)
    ensures Layout(code).Some? <==> Known(code)
  {
  }

  /** Types are unknown exactly if they are none of the 24. */
  lemma UnknownIff(b: Bytes, code: nat)
    ensures DecMessage(b) == Err(UnknownMessageType(code)) <==> Frame(b).Ok? && Frame(b).value.0 == code && !Known(code)
  {
    if Frame(b).Ok? {
      BodyUnknown(Frame(b).value.0, Frame(b).value.1, code);
      KnownLayouts(Frame(b).value.0);
    }
  }

  /** A value is invalid exactly if SUBSCRIBE_NAMESPACE names an option beyond 2. */
  lemma InvalidIff(b: Bytes)
    ensures DecMessage(b) == Err(InvalidValue)
       <==> Frame(b).Ok? && PayloadMeets(IsBadOption(), Frame(b).value.0, Frame(b).value.1)
  {
    if Frame(b).Ok? { BodyInvalid(Frame(b).value.0, Frame(b).value.1); }
  }

  lemma AcceptedIff(b: Bytes)
    ensures DecMessage(b).Ok? <==> Accepted(b)
  {
    if DecMessage(b).Ok? {
      var (m, n) := DecMessage(b).value;
      AcceptsIff(b, m, n);
    }
    if m, n: nat :| n <= |b| && IsMessage(b[..n], m) {
      AcceptsIff(b, m, n);
    }
  }

  /** Everything else that is complete and no message is a violation: of a known type, not cut short within a
      field, with no count too large and no option unknown. */
  lemma ViolationIff(b: Bytes)
    ensures DecMessage(b) == Err(ProtocolViolation)
       <==> Frame(b).Ok? && !Accepted(b)
            && var (code, payload) := (Frame(b).value.0, Frame(b).value.1);
               Known(code) && !PayloadCut(code, payload) && !PayloadOverlong(code, payload)
               && !PayloadMeets(IsBadOption(), code, payload)
  {
    AcceptedIff(b);
    if Frame(b).Ok? { BodyViolation(Frame(b).value.0, Frame(b).value.1); }
  }

  lemma BodyViolation(code: nat, payload: Bytes)
    ensures DecBody(code, payload) == Err(ProtocolViolation)
       <==> DecBody(code, payload).Err? && Known(code) && !PayloadCut(code, payload) && !PayloadOverlong(code, payload)
            && !PayloadMeets(IsBadOption(), code, payload)
  {
    KnownLayouts(code);
    BodyShort(code, payload);
    BodyFaults(code, payload);
    BodyInvalid(code, payload);
    BodyUnknown(code, payload, code);
    if DecBody(code, payload).Err? {
      BodyFailures(code, payload, DecBody(code, payload).error);
      if DecBody(code, payload).error.UnknownMessageType? {
        BodyUnknown(code, payload, DecBody(code, payload).error.code);
      }
    }
  }
}
