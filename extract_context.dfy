/** `ExtractContext`: the immutable parameters of one retry sequence, and the
    correlation id it is born with. */
module ExtractContexts {
  import opened Common
  import Text

  type UInt32 = x: int | 0 <= x < 0x1_0000_0000
  type UInt16 = x: int | 0 <= x < 0x1_0000
  type Byte = x: int | 0 <= x < 0x100
  type Bytes8 = s: seq<Byte> | |s| == 8 witness [0, 0, 0, 0, 0, 0, 0, 0]

  /** A `System.Guid` by its fields. Which value `Guid.NewGuid` draws is not
      modelled: callers pass it in. */
  datatype Guid = Guid(a: UInt32, b: UInt16, c: UInt16, d: Bytes8)

  /** The hexadecimal of the eight trailing bytes, two digits each. */
  function BytesHex(d: seq<Byte>): (s: string)
    ensures |s| == 2 * |d| && Text.AllLowerHex(s)
  {
    if d == [] then []
    else
      var head, tail := Text.HexFixed(d[0], 2), BytesHex(d[1..]);
      Text.LowerHexConcat(head, tail);
      head + tail
  }

  /** `Guid.ToString("N")`: 32 lower-case hexadecimal digits, no hyphens,
      the first eight of which are field `a`. */
  function GuidToStringN(g: Guid): (s: string)
    ensures |s| == 32 && Text.AllLowerHex(s)
    ensures s[..8] == Text.HexFixed(g.a, 8)
  {
    var a, b, c, d := Text.HexFixed(g.a, 8), Text.HexFixed(g.b, 4), Text.HexFixed(g.c, 4), BytesHex(g.d);
    Text.LowerHexConcat(c, d);
    Text.LowerHexConcat(b, c + d);
    Text.LowerHexConcat(a, b + (c + d));
    assert (a + (b + (c + d)))[..8] == a;
    a + (b + (c + d))
  }

  /** The property initializer `Guid.NewGuid().ToString("N")[..8]`: exactly
      eight lower-case hexadecimal characters, from which the Guid's first
      field can be read back, so Guids that differ there give different ids. */
  function NewCorrelationId(g: Guid): (id: string)
    ensures |id| == 8 && Text.AllLowerHex(id)
    ensures Text.HexValue(id) == g.a
  {
    Text.HexRoundTrip(g.a, 8);
    GuidToStringN(g)[..8]
  }

  /** Every property is init-only: a context's retry parameters cannot change
      while a retry sequence reads them. Any `int` is accepted. */
  datatype ExtractContext = ExtractContext(
    requestedUtc: DateTime,
    maxRetryAttempts: Int32,
    retryDelaySeconds: Int32,
    correlationId: string)

  /** `new ExtractContext { ... }`: the initializer may set any of the four
      properties; the ones it leaves out keep their defaults (`default(DateTime)`,
      0, 0 and a new correlation id drawn from `g`). */
  function NewContext(requestedUtc: Option<DateTime>, maxRetryAttempts: Option<Int32>,
                      retryDelaySeconds: Option<Int32>, correlationId: Option<string>,
                      g: Guid): (c: ExtractContext)
    ensures c.requestedUtc == (if requestedUtc.Some? then requestedUtc.value else MinValue)
    ensures c.maxRetryAttempts == (if maxRetryAttempts.Some? then maxRetryAttempts.value else 0)
    ensures c.retryDelaySeconds == (if retryDelaySeconds.Some? then retryDelaySeconds.value else 0)
    ensures correlationId.Some? ==> c.correlationId == correlationId.value
    ensures correlationId.None? ==> |c.correlationId| == 8 && Text.AllLowerHex(c.correlationId)
  {
    ExtractContext(
      if requestedUtc.Some? then requestedUtc.value else MinValue,
      if maxRetryAttempts.Some? then maxRetryAttempts.value else 0,
      if retryDelaySeconds.Some? then retryDelaySeconds.value else 0,
      if correlationId.Some? then correlationId.value else NewCorrelationId(g))
  }

  /** `new ExtractContext()`: zero retry fields, the default request time and
      an eight-character lower-case hexadecimal correlation id. */
  lemma DefaultContextShape(g: Guid)
    ensures var c := NewContext(None, None, None, None, g);
      c.requestedUtc == MinValue && c.maxRetryAttempts == 0 && c.retryDelaySeconds == 0 &&
      |c.correlationId| == 8 && Text.AllLowerHex(c.correlationId)
  {
  }

  /** Two default contexts drawn from Guids with different first fields have
      different correlation ids. */
  lemma DistinctGuidsGiveDistinctIds(g1: Guid, g2: Guid)
    requires g1.a != g2.a
    ensures NewContext(None, None, None, None, g1).correlationId
         != NewContext(None, None, None, None, g2).correlationId
  {
  }
}
