/**
 Routing endpoints carried inside request ids: decorating, stripping
 (llumnix/backends/vllm/v1_kv_transfer.py:72-138) and parsing them
 (llumnix/backends/vllm/corex_p2p_connector.py:406-427).
 */
module RequestId {
  import opened Prelude

  const DECODE_MARKER := "___decode_addr_"
  const PREFILL_MARKER := "___prefill_addr_"
  const SUFFIX := "___"

  datatype Malformed = BadEndpoint | NoEndpoint

  datatype Endpoint = Endpoint(host: string, port: nat)

  /** m occurs in s at position i. */
  predicate At(s: string, m: string, i: int) {
    0 <= i && i + |m| <= |s| && s[i..i + |m|] == m
  }

  ghost predicate Contains(s: string, m: string) {
    exists i :: At(s, m, i)
  }

  /** Position of the first occurrence, or -1. */
  function Find(s: string, m: string): (r: int)
    ensures r == -1 <==> !Contains(s, m)
    ensures r != -1 ==> At(s, m, r)
    ensures forall i :: At(s, m, i) ==> r != -1 && r <= i
  {
    FindFrom(s, m, 0)
  }

  function FindFrom(s: string, m: string, start: nat): (r: int)
    requires start <= |s|
    ensures r != -1 ==> start <= r && At(s, m, r)
    ensures forall i :: start <= i && At(s, m, i) ==> r != -1 && r <= i
    decreases |s| - start
  {
    if At(s, m, start) then start
    else if start == |s| then -1
    else FindFrom(s, m, start + 1)
  }

  /** Position of the last c, or -1. */
  function LastIndex(s: string, c: char): (r: int)
    ensures -1 <= r < |s|
    ensures r >= 0 ==> s[r] == c
    ensures forall i :: r < i < |s| ==> s[i] != c
  {
    if s == [] then -1
    else if s[|s| - 1] == c then |s| - 1
    else LastIndex(s[..|s| - 1], c)
  }

  predicate IsDigit(c: char) {
    '0' <= c <= '9'
  }

  predicate AllDigits(s: string) {
    s != [] && forall i :: 0 <= i < |s| ==> IsDigit(s[i])
  }

  function NumberOf(s: string): nat
    requires forall i :: 0 <= i < |s| ==> IsDigit(s[i])
  {
    if s == [] then 0
    else
      assert IsDigit(s[|s| - 1]);
      10 * NumberOf(s[..|s| - 1]) + (s[|s| - 1] as int - '0' as int)
  }

  /** host, ":" and decimal port, split at the last colon. */
  function ParseEndpoint(v: string): Result<Endpoint, Malformed> {
    var colon := LastIndex(v, ':');
    if colon <= 0 || !AllDigits(v[colon + 1..]) then Err(NoEndpoint)
    else Ok(Endpoint(v[..colon], NumberOf(v[colon + 1..])))
  }

  predicate ValidEndpoint(address: string) {
    var e := ParseEndpoint(address);
    e.Ok? && 0 < e.value.port < 65536
  }

  function Strip(id: string): string {
    var d, p := Find(id, DECODE_MARKER), Find(id, PREFILL_MARKER);
    if d < 0 && p < 0 then id
    else if d < 0 then id[..p]
    else if p < 0 then id[..d]
    else id[..Min(d, p)]
  }

  function Decorate(id: string, marker: string, address: string): Result<string, Malformed> {
    if address == "" || Find(id, marker) >= 0 then Ok(id)
    else if !ValidEndpoint(address) then Err(BadEndpoint)
    else Ok(id + marker + address + SUFFIX)
  }

  /** The shared id of a prefill/decode pair: the decode endpoint, then the prefill endpoint. */
  function DecoratePd(id: string, decode: string, prefill: string): Result<string, Malformed> {
    match Decorate(id, DECODE_MARKER, decode)
    case Err(e) => Err(e)
    case Ok(r) => Decorate(r, PREFILL_MARKER, prefill)
  }

  function FirstPart(s: string): string {
    var i := Find(s, SUFFIX);
    if i < 0 then s else s[..i]
  }

  /** What follows the first marker. */
  function ValueBehind(id: string, marker: string): Option<string> {
    var start := Find(id, marker);
    if start < 0 then None else Some(id[start + |marker|..])
  }

  /** The endpoint behind the first marker, up to the suffix. */
  function ParseBehind(id: string, marker: string): Result<Endpoint, Malformed> {
    match ValueBehind(id, marker)
    case None => Err(NoEndpoint)
    case Some(value) => ParseEndpoint(FirstPart(value))
  }

  function ParseRequestId(id: string, isPrefill: bool): Result<Endpoint, Malformed> {
    ParseBehind(id, if isPrefill then DECODE_MARKER else PREFILL_MARKER)
  }

  /**
   What matters about a marker: three underscores, then something else, then no
   two underscores in a row and no digit, and one underscore at the end.
   */
  ghost predicate Marker(m: string) {
    && |m| > 5 && m[0] == m[1] == m[2] == '_' && m[3] != '_' && m[|m| - 1] == '_' && m[|m| - 2] != '_'
    && (forall t, u :: 3 <= t < u < |m| && u == t + 1 ==> m[t] != '_' || m[u] != '_')
    && (forall t :: 0 <= t < |m| ==> !IsDigit(m[t]))
  }

  lemma MarkersAreMarkers()
    ensures Marker(DECODE_MARKER) && Marker(PREFILL_MARKER)
  {
  }

  /** No marker occurs in the id, nor would one more underscore complete one. */
  ghost predicate Clean(id: string) {
    !Contains(id + "_", DECODE_MARKER) && !Contains(id + "_", PREFILL_MARKER)
  }

  lemma AtChars(s: string, m: string, i: int)
    ensures At(s, m, i) <==> 0 <= i && i + |m| <= |s| && forall j :: 0 <= j < |m| ==> s[i + j] == m[j]
  {
  }

  /** Where two strings agree, a marker occurs in both or in neither. */
  lemma AtPrefix(s: string, longer: string, m: string, i: int)
    requires s <= longer && i + |m| <= |s|
    ensures At(s, m, i) <==> At(longer, m, i)
  {
  }

  /** An occurrence that begins before another marker ends at most one underscore into it. */
  lemma NoCrossing(pre: string, x: string, m: string, i: int)
    requires Marker(m) && |x| > 3 && x[0] == x[1] == x[2] == '_' && x[3] != '_'
    requires At(pre + x, m, i) && i < |pre|
    ensures At(pre + "_", m, i)
  {
    var s, t := pre + x, |pre| - i;
    AtChars(s, m, i);
    assert s[i + t] == s[i + t + 1] == s[i + t + 2] == '_';
    AtChars(pre + "_", m, i);
  }

  lemma DirtyIsFound(id: string, r: string, m: string)
    requires Contains(id + "_", m) && (id + "_" <= r || (id <= r && Contains(id, m)))
    ensures 0 <= Find(r, m) && Find(r, m) + |m| <= |id| + 1
  {
    if id + "_" <= r {
      var i :| At(id + "_", m, i);
      AtPrefix(id + "_", r, m, i);
    } else {
      var i :| At(id, m, i);
      AtPrefix(id, r, m, i);
    }
  }

  /** The first marker after a clean id is the one that was attached. */
  lemma FirstMarker(id: string, x: string, m: string)
    requires Marker(m) && !Contains(id + "_", m)
    requires |x| > 3 && x[0] == x[1] == x[2] == '_' && x[3] != '_'
    ensures forall i :: At(id + x, m, i) ==> i >= |id|
    ensures m <= x ==> Find(id + x, m) == |id|
  {
    forall i | At(id + x, m, i)
      ensures i >= |id|
    {
      if i < |id| {
        NoCrossing(id, x, m, i);
      }
    }
    if m <= x {
      assert (id + x)[|id|..|id| + |m|] == x[..|m|];
      assert At(id + x, m, |id|);
    }
  }

  /** Stripping anything that begins with a marker gives back the id exactly when the id is clean. */
  lemma StripAttached(id: string, marker: string, rest: string)
    requires marker == DECODE_MARKER || marker == PREFILL_MARKER
    ensures Strip(id + (marker + rest)) == id <==> Clean(id)
  {
    MarkersAreMarkers();
    var x := marker + rest;
    var r := id + x;
    assert marker <= x && r[..|id|] == id;
    if Clean(id) {
      FirstMarker(id, x, DECODE_MARKER);
      FirstMarker(id, x, PREFILL_MARKER);
    } else {
      assert id + "_" <= r;
      StripDirty(id, r);
    }
  }

  lemma StripDirty(id: string, r: string)
    requires !Clean(id) && id <= r
    requires id + "_" <= r || Contains(id, DECODE_MARKER) || Contains(id, PREFILL_MARKER)
    ensures Strip(r) != id
  {
    MarkersAreMarkers();
    if id + "_" <= r {
      if Contains(id + "_", DECODE_MARKER) {
        DirtyIsFound(id, r, DECODE_MARKER);
      } else {
        DirtyIsFound(id, r, PREFILL_MARKER);
      }
    } else if Contains(id, DECODE_MARKER) {
      Widen(id, DECODE_MARKER);
      DirtyIsFound(id, r, DECODE_MARKER);
    } else {
      Widen(id, PREFILL_MARKER);
      DirtyIsFound(id, r, PREFILL_MARKER);
    }
  }

  lemma Widen(id: string, m: string)
    requires Contains(id, m)
    ensures Contains(id + "_", m)
  {
    var i :| At(id, m, i);
    AtPrefix(id, id + "_", m, i);
  }

  /**
   Strip undoes the decoration with two valid endpoints exactly for the clean ids,
   whatever the hosts look like.
   */
  lemma StripUndoesDecoration(id: string, decode: string, prefill: string)
    requires ValidEndpoint(decode) && ValidEndpoint(prefill)
    ensures DecoratePd(id, decode, prefill).Ok?
    ensures Strip(DecoratePd(id, decode, prefill).value) == id <==> Clean(id)
  {
    var r := DecoratePd(id, decode, prefill).value;
    if Contains(id, DECODE_MARKER) {
      Widen(id, DECODE_MARKER);
      assert id <= r;
      StripDirty(id, r);
    } else {
      var rest := r[|id| + |DECODE_MARKER|..];
      assert r == id + (DECODE_MARKER + rest);
      StripAttached(id, DECODE_MARKER, rest);
    }
  }

  /** Decorating again, with the same endpoints, changes nothing. */
  lemma DecoratingTwice(id: string, decode: string, prefill: string)
    requires DecoratePd(id, decode, prefill).Ok?
    ensures DecoratePd(DecoratePd(id, decode, prefill).value, decode, prefill) == DecoratePd(id, decode, prefill)
  {
    var first := Decorate(id, DECODE_MARKER, decode).value;
    var r := Decorate(first, PREFILL_MARKER, prefill).value;
    Attached(id, DECODE_MARKER, decode);
    Attached(first, PREFILL_MARKER, prefill);
    if decode != "" {
      var i :| At(first, DECODE_MARKER, i);
      AtPrefix(first, r, DECODE_MARKER, i);
    }
  }

  lemma Attached(id: string, marker: string, address: string)
    requires Decorate(id, marker, address).Ok?
    ensures id <= Decorate(id, marker, address).value
    ensures address != "" ==> Contains(Decorate(id, marker, address).value, marker)
  {
    var r := Decorate(id, marker, address).value;
    if address != "" && Find(id, marker) < 0 {
      assert r[|id|..|id| + |marker|] == marker;
      assert At(r, marker, |id|);
    }
  }

  lemma EndsInDigits(address: string)
    requires ValidEndpoint(address)
    ensures var colon := LastIndex(address, ':');
            && 0 < colon < |address| - 1
            && forall i :: colon < i < |address| ==> IsDigit(address[i])
  {
  }

  /** The part up to the suffix is the whole address exactly when the address has no such suffix inside. */
  lemma CutAtSuffix(address: string, rest: string)
    requires ValidEndpoint(address)
    ensures ParseEndpoint(FirstPart(address + SUFFIX + rest)) == ParseEndpoint(address) <==> !Contains(address, SUFFIX)
  {
    var v := address + SUFFIX + rest;
    assert v[|address|..|address| + 3] == SUFFIX;
    assert At(v, SUFFIX, |address|);
    assert address <= v;
    var cut := Find(v, SUFFIX);
    if cut < |address| {
      CutInside(address, v, cut);
    } else {
      assert FirstPart(v) == address;
      forall i
        ensures !At(address, SUFFIX, i)
      {
        if At(address, SUFFIX, i) {
          AtPrefix(address, v, SUFFIX, i);
        }
      }
    }
  }

  /** A cut inside the address is before its last colon, so the host that is left is shorter. */
  lemma CutInside(address: string, v: string, cut: nat)
    requires ValidEndpoint(address) && address <= v && cut == Find(v, SUFFIX) && cut < |address|
    ensures Contains(address, SUFFIX) && ParseEndpoint(FirstPart(v)) != ParseEndpoint(address)
  {
    EndsInDigits(address);
    var colon := LastIndex(address, ':');
    AtChars(v, SUFFIX, cut);
    assert SUFFIX[0] == SUFFIX[1] == SUFFIX[2] == '_';
    assert v[cut + 0] == v[cut + 1] == v[cut + 2] == '_';
    assert !IsDigit('_') && v[|address| - 1] == address[|address| - 1];
    AtPrefix(address, v, SUFFIX, cut);
    assert At(address, SUFFIX, cut);
    assert address[cut] == '_' && cut < colon;
    var part := address[..cut];
    assert FirstPart(v) == part;
    assert ParseEndpoint(part).Ok? ==> |ParseEndpoint(part).value.host| < cut;
  }

  lemma CleanIsUnmarked(id: string)
    requires Clean(id)
    ensures !Contains(id, DECODE_MARKER) && !Contains(id, PREFILL_MARKER)
  {
    if Contains(id, DECODE_MARKER) {
      Widen(id, DECODE_MARKER);
    }
    if Contains(id, PREFILL_MARKER) {
      Widen(id, PREFILL_MARKER);
    }
  }

  /** Behind one marker, another can only begin with the first one's last underscore. */
  lemma NotInsideMarker(id: string, k: string, y: string, m: string, i: int)
    requires Marker(k) && Marker(m) && m[3] != k[3] && !Contains(id + "_", m)
    requires At(id + (k + y), m, i)
    ensures i >= |id| + |k| - 1
    ensures At("_" + y, m, i - |id| - |k| + 1)
  {
    var x := k + y;
    var s, t := id + x, i - |id|;
    FirstMarker(id, x, m);
    AtChars(s, m, i);
    assert s[i + 0] == x[t] && s[i + 1] == x[t + 1] && s[i + 2] == x[t + 2] && s[i + 3] == x[t + 3];
    assert t >= |k| - 1;
    BehindMarker(id, k, y, m, i);
  }

  lemma BehindMarker(id: string, k: string, y: string, m: string, i: int)
    requires k != "" && k[|k| - 1] == '_' && i >= |id| + |k| - 1
    ensures At(id + (k + y), m, i) <==> At("_" + y, m, i - |id| - |k| + 1)
  {
    var s, tail, u := id + (k + y), "_" + y, i - |id| - |k| + 1;
    assert s[|id| + |k| - 1..] == tail;
    if u + |m| <= |tail| {
      assert s[i..i + |m|] == tail[u..u + |m|];
    }
  }

  /** Digits end every marker. */
  lemma NotAcrossDigits(address: string, m: string, i: int)
    requires Marker(m) && ValidEndpoint(address) && !Contains("_" + address, m)
    ensures !At("_" + (address + "____"), m, i)
  {
    var s := "_" + (address + "____");
    EndsInDigits(address);
    AtChars(s, m, i);
    assert "_" + address <= s && s[|address|] == address[|address| - 1];
    if At(s, m, i) && i + |m| <= |address| + 1 {
      AtPrefix("_" + address, s, m, i);
    }
  }

  /** Behind a clean id, one marker and an address that does not complete the other, that other one is new. */
  lemma MarkerIsNew(id: string, k: string, address: string, m: string)
    requires Marker(k) && Marker(m) && m[3] != k[3] && !Contains(id + "_", m)
    requires ValidEndpoint(address) && !Contains("_" + address, m)
    ensures !Contains(id + k + address + SUFFIX + "_", m)
  {
    var y := address + "____";
    var s := id + (k + y);
    assert SUFFIX + "_" == "____";
    assert id + k + address + SUFFIX + "_" == s;
    forall i
      ensures !At(s, m, i)
    {
      if At(s, m, i) {
        NotInsideMarker(id, k, y, m, i);
        NotAcrossDigits(address, m, i - |id| - |k| + 1);
      }
    }
  }

  /** A marker completed by the address behind another one occurs in the whole. */
  lemma SwallowsMarker(id: string, k: string, address: string, suffix: string, m: string)
    requires Marker(k) && Contains("_" + address, m)
    ensures Contains(id + k + address + suffix, m)
  {
    var i :| At("_" + address, m, i);
    var y := address + suffix;
    assert "_" + address <= "_" + y;
    AtPrefix("_" + address, "_" + y, m, i);
    BehindMarker(id, k, y, m, i + |id| + |k| - 1);
    assert id + (k + y) == id + k + address + suffix;
  }

  /** The prefill endpoint is attached at all exactly when the decode endpoint completes no prefill marker. */
  lemma PrefillIsAttached(id: string, decode: string, prefill: string)
    requires Clean(id) && ValidEndpoint(decode) && ValidEndpoint(prefill)
    ensures var first := id + DECODE_MARKER + decode + SUFFIX;
            DecoratePd(id, decode, prefill) ==
            Ok(if Contains("_" + decode, PREFILL_MARKER) then first else first + PREFILL_MARKER + prefill + SUFFIX)
  {
    CleanIsUnmarked(id);
    MarkersAreMarkers();
    var first := id + DECODE_MARKER + decode + SUFFIX;
    if Contains("_" + decode, PREFILL_MARKER) {
      SwallowsMarker(id, DECODE_MARKER, decode, SUFFIX, PREFILL_MARKER);
    } else {
      MarkerIsNew(id, DECODE_MARKER, decode, PREFILL_MARKER);
      if Contains(first, PREFILL_MARKER) {
        Widen(first, PREFILL_MARKER);
      }
    }
  }

  /** Parsing looks behind the first marker, up to the suffix. */
  lemma FirstParses(id: string, m: string, address: string, rest: string)
    requires Marker(m) && !Contains(id + "_", m) && ValidEndpoint(address)
    ensures ParseBehind(id + m + address + SUFFIX + rest, m) == ParseEndpoint(address) <==> !Contains(address, SUFFIX)
  {
    var value := address + SUFFIX + rest;
    Nest(id, m, address, SUFFIX, rest);
    FirstValue(id, m, value);
    CutAtSuffix(address, rest);
  }

  lemma FirstValue(id: string, m: string, value: string)
    requires Marker(m) && !Contains(id + "_", m)
    ensures ValueBehind(id + (m + value), m) == Some(value)
  {
    FirstMarker(id, m + value, m);
    assert (id + (m + value))[|id| + |m|..] == value;
  }

  /** The same with nothing behind the suffix. */
  lemma LastParses(id: string, m: string, address: string)
    requires Marker(m) && !Contains(id + "_", m) && ValidEndpoint(address)
    ensures ParseBehind(id + m + address + SUFFIX, m) == ParseEndpoint(address) <==> !Contains(address, SUFFIX)
  {
    FirstParses(id, m, address, "");
    var whole := id + m + address + SUFFIX;
    assert whole + "" == whole;
  }

  lemma Nest(a: string, b: string, c: string, d: string, e: string)
    ensures a + b + c + d + e == a + (b + (c + d + e))
  {
  }

  /** The decode endpoint of a decorated clean id is parsed back exactly when it has no suffix inside. */
  lemma DecodeEndpointParses(id: string, decode: string, prefill: string)
    requires Clean(id) && ValidEndpoint(decode) && ValidEndpoint(prefill)
    ensures var r := DecoratePd(id, decode, prefill);
            r.Ok? && (ParseRequestId(r.value, true) == ParseEndpoint(decode) <==> !Contains(decode, SUFFIX))
  {
    MarkersAreMarkers();
    PrefillIsAttached(id, decode, prefill);
    LastParses(id, DECODE_MARKER, decode);
    FirstParses(id, DECODE_MARKER, decode, PREFILL_MARKER + prefill + SUFFIX);
    var first := id + DECODE_MARKER + decode + SUFFIX;
    Regroup(first, PREFILL_MARKER, prefill, SUFFIX);
  }

  lemma Regroup(a: string, b: string, c: string, d: string)
    ensures a + b + c + d == a + (b + c + d)
  {
  }

  /**
   The prefill endpoint of a decorated clean id, when the decode endpoint does not
   itself complete a prefill marker, is parsed back exactly when it has no suffix inside.
   */
  lemma PrefillEndpointParses(id: string, decode: string, prefill: string)
    requires Clean(id) && ValidEndpoint(decode) && ValidEndpoint(prefill)
    requires !Contains("_" + decode, PREFILL_MARKER)
    ensures var r := DecoratePd(id, decode, prefill);
            r.Ok? && (ParseRequestId(r.value, false) == ParseEndpoint(prefill) <==> !Contains(prefill, SUFFIX))
  {
    MarkersAreMarkers();
    PrefillIsAttached(id, decode, prefill);
    SecondParses(id, DECODE_MARKER, decode, PREFILL_MARKER, prefill);
  }

  /** A second endpoint, behind a marker that the first one does not complete. */
  lemma SecondParses(id: string, k: string, a: string, m: string, b: string)
    requires Marker(k) && Marker(m) && m[3] != k[3] && !Contains(id + "_", m)
    requires ValidEndpoint(a) && ValidEndpoint(b) && !Contains("_" + a, m)
    ensures ParseBehind(id + k + a + SUFFIX + m + b + SUFFIX, m) == ParseEndpoint(b) <==> !Contains(b, SUFFIX)
  {
    MarkerIsNew(id, k, a, m);
    LastParses(id + k + a + SUFFIX, m, b);
  }

  lemma PlainHost(address: string)
    requires ValidEndpoint(address) && '_' !in ParseEndpoint(address).value.host
    ensures !Contains(address, SUFFIX) && !Contains("_" + address, PREFILL_MARKER)
  {
    EndsInDigits(address);
    var colon := LastIndex(address, ':');
    forall i | 0 <= i < |address|
      ensures address[i] != '_'
    {
      assert i < colon ==> address[i] == address[..colon][i];
    }
    forall i
      ensures !At(address, SUFFIX, i) && !At("_" + address, PREFILL_MARKER, i)
    {
      AtChars(address, SUFFIX, i);
      AtChars("_" + address, PREFILL_MARKER, i);
      MarkersAreMarkers();
    }
  }

  /**
   For a clean id and two valid endpoints whose hosts have no underscore, the
   decorated id gives back all three.
   */
  lemma RoundTrip(id: string, decode: string, prefill: string)
    requires Clean(id) && ValidEndpoint(decode) && ValidEndpoint(prefill)
    requires '_' !in ParseEndpoint(decode).value.host && '_' !in ParseEndpoint(prefill).value.host
    ensures var r := DecoratePd(id, decode, prefill);
            && r.Ok? && Strip(r.value) == id
            && ParseRequestId(r.value, true) == ParseEndpoint(decode)
            && ParseRequestId(r.value, false) == ParseEndpoint(prefill)
  {
    PlainHost(decode);
    PlainHost(prefill);
    StripUndoesDecoration(id, decode, prefill);
    DecodeEndpointParses(id, decode, prefill);
    PrefillEndpointParses(id, decode, prefill);
  }

  /** Two ids that are told apart stay apart once decorated. */
  lemma DecorationIsInjective(id1: string, id2: string, d1: string, d2: string, p1: string, p2: string)
    requires Clean(id1) && Clean(id2) && ValidEndpoint(d1) && ValidEndpoint(d2) && ValidEndpoint(p1)
             && ValidEndpoint(p2)
    requires DecoratePd(id1, d1, p1) == DecoratePd(id2, d2, p2)
    ensures id1 == id2
  {
    StripUndoesDecoration(id1, d1, p1);
    StripUndoesDecoration(id2, d2, p2);
  }

  /** An id that ends just short of a marker is not given back, whatever the endpoints. */
  lemma AlmostMarkedId(decode: string, prefill: string)
    requires ValidEndpoint(decode) && ValidEndpoint(prefill)
    ensures var id := "a___decode_addr";
            var r := DecoratePd(id, decode, prefill);
            !Contains(id, DECODE_MARKER) && !Contains(id, PREFILL_MARKER) && r.Ok? && Strip(r.value) != id
  {
    var id := "a___decode_addr";
    assert (id + "_")[1..16] == DECODE_MARKER;
    assert At(id + "_", DECODE_MARKER, 1);
    StripUndoesDecoration(id, decode, prefill);
    assert id[0] == 'a';
    forall i
      ensures !At(id, DECODE_MARKER, i) && !At(id, PREFILL_MARKER, i)
    {
      assert |id| == |DECODE_MARKER|;
      AtChars(id, DECODE_MARKER, i);
    }
  }

  lemma OneDigitPort(host: string, c: char)
    requires host != "" && '1' <= c <= '9'
    ensures ValidEndpoint(host + [':', c])
            && ParseEndpoint(host + [':', c]) == Ok(Endpoint(host, c as int - '0' as int))
  {
    var v := host + [':', c];
    assert v[|host|] == ':' && v[|host| + 1] == c;
    assert LastIndex(v, ':') == |host|;
    assert v[|host| + 1..] == [c] && v[..|host|] == host;
    assert [c][..0] == "";
    assert NumberOf([c]) == 10 * NumberOf("") + (c as int - '0' as int);
  }

  /** A decode endpoint whose host completes a prefill marker: the prefill endpoint is not attached. */
  lemma PrefillIsSwallowed(id: string, prefill: string)
    requires Clean(id) && ValidEndpoint(prefill)
    ensures var decode := "__prefill_addr_h" + [':', '1'];
            ValidEndpoint(decode) && DecoratePd(id, decode, prefill) == Ok(id + DECODE_MARKER + decode + SUFFIX)
  {
    var decode := "__prefill_addr_h" + [':', '1'];
    OneDigitPort("__prefill_addr_h", '1');
    assert ("_" + decode)[0..16] == PREFILL_MARKER;
    assert At("_" + decode, PREFILL_MARKER, 0);
    PrefillIsAttached(id, decode, prefill);
  }

  /** A decode host with the suffix inside: it is not parsed back. */
  lemma SuffixInHostIsCut(id: string, prefill: string)
    requires Clean(id) && ValidEndpoint(prefill)
    ensures var decode := "a___b" + [':', '1'];
            var r := DecoratePd(id, decode, prefill);
            ValidEndpoint(decode) && r.Ok? && ParseRequestId(r.value, true) != ParseEndpoint(decode)
  {
    var decode := "a___b" + [':', '1'];
    OneDigitPort("a___b", '1');
    assert decode[1..4] == SUFFIX;
    assert At(decode, SUFFIX, 1);
    DecodeEndpointParses(id, decode, prefill);
  }

  // ------------------------------------------------------------------
  // Endpoints as text

  function Digit(d: nat): char
    requires d < 10
  {
    '0' + d as char
  }

  /** The decimal representation. */
  function Digits(n: nat): (s: string)
    ensures AllDigits(s)
  {
    if n < 10 then [Digit(n)] else Digits(n / 10) + [Digit(n % 10)]
  }

  lemma {:induction false} DigitsMeanNumber(n: nat)
    ensures NumberOf(Digits(n)) == n
  {
    if n < 10 {
      assert [Digit(n)][..0] == [];
    } else {
      DigitsMeanNumber(n / 10);
      var front := Digits(n / 10);
      assert (front + [Digit(n % 10)])[..|front|] == front;
    }
  }

  function Text(host: string, port: nat): string {
    host + ":" + Digits(port)
  }

  lemma Parts(a: string, c: string, b: string)
    requires |c| == 1
    ensures var v := a + c + b;
            v[|a|] == c[0] && v[..|a|] == a && v[|a| + 1..] == b
    ensures forall i :: 0 <= i < |b| ==> (a + c + b)[|a| + 1 + i] == b[i]
  {
  }

  lemma IsLastIndex(v: string, c: char, i: nat)
    requires i < |v| && v[i] == c && c !in v[i + 1..]
    ensures LastIndex(v, c) == i
  {
    assert forall j :: i < j < |v| ==> v[j] == v[i + 1..][j - i - 1];
  }

  lemma SplitAtColon(host: string, rest: string)
    requires ':' !in rest
    ensures LastIndex(host + ":" + rest, ':') == |host|
    ensures (host + ":" + rest)[..|host|] == host && (host + ":" + rest)[|host| + 1..] == rest
  {
    Parts(host, ":", rest);
    IsLastIndex(host + ":" + rest, ':', |host|);
  }

  /** What is an endpoint, and a valid one, by what stands before and behind the last colon. */
  lemma EndpointMeaning(host: string, rest: string)
    requires ':' !in rest
    ensures var v := host + ":" + rest;
            && (ParseEndpoint(v).Ok? <==> host != "" && AllDigits(rest))
            && (ParseEndpoint(v).Ok? ==> ParseEndpoint(v).value == Endpoint(host, NumberOf(rest)))
            && (ValidEndpoint(v) <==> host != "" && AllDigits(rest) && 1 <= NumberOf(rest) <= 65535)
  {
    SplitAtColon(host, rest);
  }

  lemma NoColonNoEndpoint(v: string)
    requires ':' !in v
    ensures ParseEndpoint(v) == Err(NoEndpoint) && !ValidEndpoint(v)
  {
  }

  lemma TextParses(host: string, port: nat)
    requires host != ""
    ensures ParseEndpoint(Text(host, port)) == Ok(Endpoint(host, port))
    ensures ValidEndpoint(Text(host, port)) <==> 1 <= port <= 65535
  {
    assert ':' !in Digits(port) by {
      assert forall i :: 0 <= i < |Digits(port)| ==> IsDigit(Digits(port)[i]);
    }
    EndpointMeaning(host, Digits(port));
    DigitsMeanNumber(port);
  }

  /**
   A clean id decorated with two hosts and ports gives back the id, the hosts and the
   ports, for all hosts without an underscore and all ports.
   */
  lemma HostsAndPortsRoundTrip(id: string, host: string, port: nat, host': string, port': nat)
    requires Clean(id) && host != "" && host' != "" && '_' !in host && '_' !in host'
    requires 1 <= port <= 65535 && 1 <= port' <= 65535
    ensures var r := DecoratePd(id, Text(host, port), Text(host', port'));
            && r.Ok? && Strip(r.value) == id
            && ParseRequestId(r.value, true) == Ok(Endpoint(host, port))
            && ParseRequestId(r.value, false) == Ok(Endpoint(host', port'))
  {
    TextParses(host, port);
    TextParses(host', port');
    RoundTrip(id, Text(host, port), Text(host', port'));
  }

  /** No endpoint, and an id that is already marked, leave the id alone; a malformed endpoint is refused. */
  lemma DecorateReplies(id: string, marker: string, address: string)
    ensures address == "" || Contains(id, marker) ==> Decorate(id, marker, address) == Ok(id)
    ensures address != "" && !Contains(id, marker) && !ValidEndpoint(address) ==>
              Decorate(id, marker, address) == Err(BadEndpoint)
    ensures address != "" && !Contains(id, marker) && ValidEndpoint(address) ==>
              Decorate(id, marker, address) == Ok(id + marker + address + "___")
  {
  }

  /** An id without a marker is stripped of nothing and has no endpoint. */
  lemma UnmarkedId(id: string, isPrefill: bool)
    requires !Contains(id, DECODE_MARKER) && !Contains(id, PREFILL_MARKER)
    ensures Strip(id) == id && ParseRequestId(id, isPrefill) == Err(NoEndpoint)
  {
  }
}
