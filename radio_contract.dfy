/** What every radio promises (the base class `RadioInterface`): the defaults of the
    optional operations, the contract of `leer`, and the conversion from a
    NUL-terminated buffer to a `String`. */
module RadioContract {
  import opened Arduino

  /** A `String`, modelled by its bytes. */
  type Text = seq<byte>

  /** Default `obtenerRSSI`: a radio without signal-strength support reports 0. */
  function DefaultObtenerRSSI(): (rssi: int)
    ensures rssi == 0
  {
    0
  }

  /** Default `dormir`: succeeds without touching the hardware. */
  function DefaultDormir(): (ok: bool)
    ensures ok
  {
    true
  }

  /** Default `despertar`: succeeds without touching the hardware. */
  function DefaultDespertar(): (ok: bool)
    ensures ok
  {
    true
  }

  /** The contract of `leer(buffer, maxLongitud)`, given the bytes `pending` the radio
      would deliver next: it returns `n == min(|pending|, maxLongitud)`, the first
      `n` cells hold the first `n` pending bytes and no other cell changes. */
  ghost predicate ReadsPending(pending: seq<byte>, maxLongitud: nat, n: nat,
                               before: seq<byte>, after: seq<byte>)
  {
    && maxLongitud <= |before|
    && |after| == |before|
    && n == Min(|pending|, maxLongitud)
    && after[..n] == pending[..n]
    && after[n..] == before[n..]
  }

  /** Whatever the radio, a `leer` that keeps this contract stays inside `maxLongitud`. */
  lemma ReadsPendingBounded(pending: seq<byte>, maxLongitud: nat, n: nat,
                            before: seq<byte>, after: seq<byte>)
    requires ReadsPending(pending, maxLongitud, n, before, after)
    ensures n <= maxLongitud && n <= |pending|
    ensures forall i :: n <= i < |before| ==> after[i] == before[i]
  {
  }

  /** The `String` the constructor `String(const char*)` builds from a buffer: its
      bytes up to, not including, the first zero byte. */
  function CString(buffer: seq<byte>): (s: Text)
    ensures s <= buffer
    ensures forall i :: 0 <= i < |s| ==> s[i] != 0
    ensures |s| < |buffer| ==> buffer[|s|] == 0
  {
    if buffer == [] || buffer[0] == 0 then [] else [buffer[0]] + CString(buffer[1..])
  }

  /** The buffer `leerComoString` builds: whatever `leer` copied, with a zero written
      after it, reads as the `String` of the copied bytes. */
  lemma TerminatedRead(pending: seq<byte>, maxLongitud: nat, n: nat, before: seq<byte>, after: seq<byte>)
    requires ReadsPending(pending, maxLongitud, n, before, after)
    requires maxLongitud < |after|
    ensures n < |after|
    ensures CString(after[n := 0]) == CString(pending[..n])
  {
    assert after[n := 0] == pending[..n] + [0] + after[n + 1..];
    CStringAtTerminator(pending[..n], after[n + 1..]);
  }

  /** A terminator right after `data` ends the `String` there, whatever follows it. */
  lemma {:induction false} CStringAtTerminator(data: seq<byte>, rest: seq<byte>)
    ensures CString(data + [0] + rest) == CString(data)
  {
    if data != [] {
      if data[0] != 0 {
        assert (data + [0] + rest)[1..] == data[1..] + [0] + rest;
        CStringAtTerminator(data[1..], rest);
      }
    }
  }
}
