/** The shape of a version-00 `traceparent` header value, section 3.2 of the
    W3C Trace Context recommendation:
      version "-" trace-id "-" parent-id "-" trace-flags
    with version = "00", trace-id = 32 lower-case hex digits (not all zero),
    parent-id = 16 lower-case hex digits (not all zero) and trace-flags =
    2 lower-case hex digits. The model never builds or parses such a value:
    the predicate is only used to say that the carrier-to-environment copy
    keeps a well-formed header well-formed. */
module TraceContext {

  predicate IsLowerHexDigit(c: char) {
    '0' <= c <= '9' || 'a' <= c <= 'f'
  }

  predicate IsLowerHex(s: string) {
    forall i :: 0 <= i < |s| ==> IsLowerHexDigit(s[i])
  }

  predicate AllZero(s: string) {
    forall i :: 0 <= i < |s| ==> s[i] == '0'
  }

  const TraceparentLength := 55

  /** The four hyphen-separated fields of a 55-character header. */
  function VersionField(h: string): (f: string)
    requires |h| == TraceparentLength
    ensures |f| == 2
  { h[..2] }

  function TraceIdField(h: string): (f: string)
    requires |h| == TraceparentLength
    ensures |f| == 32
  { h[3..35] }

  function ParentIdField(h: string): (f: string)
    requires |h| == TraceparentLength
    ensures |f| == 16
  { h[36..52] }

  function FlagsField(h: string): (f: string)
    requires |h| == TraceparentLength
    ensures |f| == 2
  { h[53..] }

  predicate WellFormedTraceparent(h: string) {
    && |h| == TraceparentLength
    && VersionField(h) == "00"
    && h[2] == '-' && h[35] == '-' && h[52] == '-'
    && IsLowerHex(TraceIdField(h)) && !AllZero(TraceIdField(h))
    && IsLowerHex(ParentIdField(h)) && !AllZero(ParentIdField(h))
    && IsLowerHex(FlagsField(h))
  }

  /** The header with version 00 and the given fields. */
  function Header(traceId: string, parentId: string, flags: string): (h: string) {
    "00-" + traceId + "-" + parentId + "-" + flags
  }

  /** A header assembled from fields of the right widths splits back into
      exactly those fields, and is well-formed exactly when each field is. */
  lemma HeaderFields(traceId: string, parentId: string, flags: string)
    requires |traceId| == 32 && |parentId| == 16 && |flags| == 2
    ensures var h := Header(traceId, parentId, flags);
      && |h| == TraceparentLength
      && VersionField(h) == "00"
      && TraceIdField(h) == traceId
      && ParentIdField(h) == parentId
      && FlagsField(h) == flags
    ensures WellFormedTraceparent(Header(traceId, parentId, flags)) <==>
      && IsLowerHex(traceId) && !AllZero(traceId)
      && IsLowerHex(parentId) && !AllZero(parentId)
      && IsLowerHex(flags)
  {
    var h := Header(traceId, parentId, flags);
    assert h == "00-" + traceId + "-" + parentId + "-" + flags;
    assert h[..2] == "00";
    assert h[3..35] == traceId;
    assert h[36..52] == parentId;
    assert h[53..] == flags;
  }

  /** The header that the docstring of `inject_context_to_env` shows, filled
      with the example identifiers of the W3C recommendation, is well-formed. */
  lemma SampleTraceparentIsWellFormed()
    ensures WellFormedTraceparent(Header("4bf92f3577b34da6a3ce929d0e0e4736", "00f067aa0ba902b7", "01"))
  {
    var t, p := "4bf92f3577b34da6a3ce929d0e0e4736", "00f067aa0ba902b7";
    assert IsLowerHex(t) && t[0] != '0';
    assert IsLowerHex(p) && p[2] != '0';
    HeaderFields(t, p, "01");
  }

  /** An all-zero trace-id or parent-id is reserved as invalid, so a header
      carrying one is never well-formed, whatever the other fields hold. */
  lemma ZeroIdsAreRejected(traceId: string, parentId: string, flags: string)
    requires |traceId| == 32 && |parentId| == 16 && |flags| == 2
    ensures AllZero(traceId) ==> !WellFormedTraceparent(Header(traceId, parentId, flags))
    ensures AllZero(parentId) ==> !WellFormedTraceparent(Header(traceId, parentId, flags))
  {
    HeaderFields(traceId, parentId, flags);
  }

  /** A field holding any character other than a lower-case hex digit (an
      upper-case `A`-`F`, for one) makes the header ill-formed. */
  lemma NonLowerHexIsRejected(traceId: string, parentId: string, flags: string)
    requires |traceId| == 32 && |parentId| == 16 && |flags| == 2
    ensures (exists i :: 0 <= i < 32 && !IsLowerHexDigit(traceId[i])) ==>
      !WellFormedTraceparent(Header(traceId, parentId, flags))
    ensures (exists i :: 0 <= i < 16 && !IsLowerHexDigit(parentId[i])) ==>
      !WellFormedTraceparent(Header(traceId, parentId, flags))
    ensures (exists i :: 0 <= i < 2 && !IsLowerHexDigit(flags[i])) ==>
      !WellFormedTraceparent(Header(traceId, parentId, flags))
  {
    HeaderFields(traceId, parentId, flags);
  }
}
