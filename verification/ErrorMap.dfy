/** WebTransport error codes inside the HTTP/3 error space: section 4.3 of draft-ietf-webtrans-http3-06. */
module ErrorMap {
  import opened Wire

  const ERROR_FIRST: int := 0x52e4_a40f_a8db
  const ERROR_LAST: int := 0x52e5_ac98_3162

  type U32 = x: int | 0 <= x < 0x1_0000_0000

  function FromHttp3(code: U64): (r: Option<U32>)
    ensures r.Some? <==> ERROR_FIRST <= code <= ERROR_LAST
  {
    if code < ERROR_FIRST || code > ERROR_LAST then None
    else
      var offset := code - ERROR_FIRST;
      Some((offset - offset / 0x1f) % 0x1_0000_0000)
  }

  function ToHttp3(code: U32): U64 {
    ERROR_FIRST + code + code / 0x1e
  }

  /** The codes that section 8.1 of RFC 9114 reserves for greasing. */
  ghost predicate Reserved(code: int) {
    exists n: nat :: code == 0x1f * n + 0x21
  }

  lemma ReservedOffset(code: int)
    requires ERROR_FIRST <= code
    ensures Reserved(code) <==> (code - ERROR_FIRST) % 0x1f == 0x1e
  {
    var n := (code - 0x21) / 0x1f;
    assert Reserved(code) ==> code == 0x1f * n + 0x21;
    if (code - ERROR_FIRST) % 0x1f == 0x1e { assert code == 0x1f * n + 0x21; }
  }

  /** Every application code has its own place in the range, and comes back from there. */
  lemma RoundTrip(n: U32)
    ensures ERROR_FIRST <= ToHttp3(n) <= ERROR_LAST
    ensures FromHttp3(ToHttp3(n)) == Some(n)
  {
    var q, r := n / 0x1e, n % 0x1e;
    var offset := ToHttp3(n) - ERROR_FIRST;
    assert offset == 0x1f * q + r && offset / 0x1f == q;
  }

  /** Codes keep their order, and none of them lands on a reserved one. */
  lemma Increasing(m: U32, n: U32)
    ensures m < n <==> ToHttp3(m) < ToHttp3(n)
    ensures !Reserved(ToHttp3(m))
  {
    var q, r := m / 0x1e, m % 0x1e;
    assert ToHttp3(m) - ERROR_FIRST == 0x1f * q + r;
    ReservedOffset(ToHttp3(m));
  }

  /** Mapping a received code back and forth changes exactly the reserved ones. */
  lemma BackAndForth(code: U64)
    requires ERROR_FIRST <= code <= ERROR_LAST
    ensures ToHttp3(FromHttp3(code).value) == code <==> !Reserved(code)
  {
    ReservedOffset(code);
    var offset := code - ERROR_FIRST;
    var q, r := offset / 0x1f, offset % 0x1f;
    assert FromHttp3(code) == Some(30 * q + r);
    if r == 0x1e { assert (30 * q + r) / 0x1e == q + 1; } else { assert (30 * q + r) / 0x1e == q; }
  }

  /** The first reserved code of the range is one that does not come back: it turns into the code after it. */
  lemma FirstReserved()
    ensures var code := ERROR_FIRST + 0x1e;
            && ERROR_FIRST <= code <= ERROR_LAST && Reserved(code)
            && (forall c | ERROR_FIRST <= c < code :: !Reserved(c))
            && ToHttp3(FromHttp3(code).value) == code + 1
  {
    var code := ERROR_FIRST + 0x1e;
    ReservedOffset(code);
    forall c | ERROR_FIRST <= c < code ensures !Reserved(c) {
      ReservedOffset(c);
    }
  }
}
