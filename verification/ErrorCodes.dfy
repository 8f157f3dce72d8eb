/** WebTransport application error codes inside HTTP/3 error codes (section 4.4 of
    draft-ietf-webtrans-http3-14; `webtransport/src/error.rs`). */
module ErrorCodes {
  import opened MoqTypes

  const WT_APP_ERROR_FIRST: nat := 0x52e4a40fa8db
  const WT_APP_ERROR_LAST: nat := 0x52e5ac983162
  const MAX_U32: nat := 0xFFFF_FFFF

  function ToHttp3(n: nat): nat {
    WT_APP_ERROR_FIRST + n + n / 0x1e
  }

  /** Codepoints 0x1f * N + 0x21 are reserved (section 8.1 of RFC 9114). The subtraction wraps at 64 bits. */
  predicate Reserved(h: nat) {
    var d := if h >= 0x21 then h - 0x21 else h + (MAX_U64 + 1) - 0x21;
    d % 0x1f == 0
  }

  function ToWebTransport(h: nat): Option<nat> {
    if h < WT_APP_ERROR_FIRST || h > WT_APP_ERROR_LAST then None
    else if Reserved(h) then None
    else
      var shifted := h - WT_APP_ERROR_FIRST;
      var wt := shifted - shifted / 0x1f;
      if wt > MAX_U32 then None else Some(wt)
  }

  /** The range starts right behind a reserved codepoint, so position in the range tells the reserved ones. */
  lemma ReservedByPosition(h: nat)
    requires h >= WT_APP_ERROR_FIRST
    ensures Reserved(h) <==> (h - WT_APP_ERROR_FIRST) % 0x1f == 0x1e
  {
    assert (WT_APP_ERROR_FIRST - 0x21) % 0x1f == 1;
    var a, b := WT_APP_ERROR_FIRST - 0x21, h - WT_APP_ERROR_FIRST;
    assert a == 0x1f * (a / 0x1f) + 1 && b == 0x1f * (b / 0x1f) + b % 0x1f;
    assert h - 0x21 == 0x1f * (a / 0x1f + b / 0x1f) + (b % 0x1f + 1);
  }

  /** The forward map is strictly increasing. */
  lemma ForwardIncreasing(m: nat, n: nat)
    requires m < n
    ensures ToHttp3(m) < ToHttp3(n)
  {
    assert m / 0x1e <= n / 0x1e;
  }

  /** Its values are codepoints of the range, none reserved, and the inverse map finds the way back. */
  lemma ThereAndBack(n: nat)
    requires n <= MAX_U32
    ensures WT_APP_ERROR_FIRST <= ToHttp3(n) <= WT_APP_ERROR_LAST && !Reserved(ToHttp3(n))
    ensures ToWebTransport(ToHttp3(n)) == Some(n)
  {
    var q, r := n / 0x1e, n % 0x1e;
    var shifted := n + q;
    assert n == 0x1e * q + r && shifted == 0x1f * q + r;
    assert shifted / 0x1f == q && shifted % 0x1f == r;
    ReservedByPosition(ToHttp3(n));
    assert q <= MAX_U32 / 0x1e;
  }

  /** Every codepoint the inverse map accepts is a value of the forward map. */
  lemma BackAndThere(h: nat)
    requires ToWebTransport(h).Some?
    ensures ToWebTransport(h).value <= MAX_U32 && ToHttp3(ToWebTransport(h).value) == h
  {
    var shifted := h - WT_APP_ERROR_FIRST;
    var q, r := shifted / 0x1f, shifted % 0x1f;
    ReservedByPosition(h);
    assert shifted == 0x1f * q + r && shifted - q == 0x1e * q + r;
    assert (shifted - q) / 0x1e == q;
  }

  /** The images of the 32-bit codes are exactly the codepoints of the range that are not reserved, and the
      inverse map accepts exactly those. */
  lemma OntoNonReserved(h: nat)
    ensures (exists n :: 0 <= n <= 0xFFFF_FFFF && ToHttp3(n) == h)
       <==> 0x52e4a40fa8db <= h <= 0x52e5ac983162 && (h - 0x21) % 0x1f != 0
    ensures ToWebTransport(h).Some? <==> 0x52e4a40fa8db <= h <= 0x52e5ac983162 && (h - 0x21) % 0x1f != 0
  {
    if WT_APP_ERROR_FIRST <= h <= WT_APP_ERROR_LAST && !Reserved(h) {
      var shifted := h - WT_APP_ERROR_FIRST;
      var q := shifted / 0x1f;
      assert shifted == 0x1f * q + shifted % 0x1f;
      assert shifted - q <= MAX_U32;
      assert ToWebTransport(h) == Some(shifted - q);
      BackAndThere(h);
    }
    if n :| 0 <= n <= MAX_U32 && ToHttp3(n) == h {
      ThereAndBack(n);
    }
  }
}
