/** The string helpers of urc-upnp.c: the version-tolerant comparison of UPnP
    type URNs (`device_service_cmp`), the rebuilding of a presentation URL from
    the description location (`parse_presentation_url`), and the comma split of
    the Layer3Forwarding DefaultConnectionService value. Also the pieces of the C
    and GLib libraries they rely on: `memcmp`, `atoi`, `g_str_has_prefix`,
    `g_strsplit` and `g_strconcat`. Strings are sequences of characters and stand
    for byte strings; the URNs and URLs involved are ASCII. */
module UpnpStrings {
  import opened UpnpTypes

  // ---------------------------------------------------------------------
  // C strings and prefixes

  /** A C string holds no NUL character. */
  predicate NulFree(s: string) {
    '\0' !in s
  }

  /** `g_str_has_prefix`, and what `memcmp(s, p, strlen(p)) == 0` means. */
  predicate StartsWith(s: string, p: string) {
    |p| <= |s| && s[..|p|] == p
  }

  /** The byte at position i of a NUL-terminated string: past the end it is the
      terminator, 0. */
  function ByteAt(s: string, i: nat): int {
    if i < |s| then s[i] as int else 0
  }

  /** `memcmp(s, p + i, strlen(p) - i)` from offset i: the difference of the first
      pair of bytes that differ, 0 when the first |p| bytes agree. C fixes only
      the sign of a non-zero result; the model returns the difference. */
  function MemCmpFrom(s: string, p: string, i: nat): (r: int)
    requires i <= |p|
    decreases |p| - i
  {
    if i == |p| then 0
    else if ByteAt(s, i) != p[i] as int then ByteAt(s, i) - p[i] as int
    else MemCmpFrom(s, p, i + 1)
  }

  lemma {:induction false} MemCmpFromZero(s: string, p: string, i: nat)
    requires i <= |p|
    ensures MemCmpFrom(s, p, i) == 0 <==> forall k :: i <= k < |p| ==> ByteAt(s, k) == p[k] as int
    decreases |p| - i
  {
    if i < |p| {
      MemCmpFromZero(s, p, i + 1);
    }
  }

  /** Comparing strlen(p) bytes gives 0 exactly when p is a prefix of s. */
  lemma MemCmpIsPrefixTest(s: string, p: string)
    requires NulFree(p)
    ensures MemCmpFrom(s, p, 0) == 0 <==> StartsWith(s, p)
  {
    MemCmpFromZero(s, p, 0);
    if |s| < |p| {
      assert p[|s|] in p;
      assert ByteAt(s, |s|) != p[|s|] as int;
    } else if forall k :: 0 <= k < |p| ==> ByteAt(s, k) == p[k] as int {
      assert s[..|p|] == p;
    }
  }

  // ---------------------------------------------------------------------
  // atoi

  predicate IsDigit(c: char) { '0' <= c <= '9' }

  /** The white space `atoi` skips (`isspace` in the C locale). */
  predicate IsSpace(c: char) {
    c == ' ' || c == '\t' || c == '\n' || c == '\r' || c == '\U{000B}' || c == '\U{000C}'
  }

  function SkipSpace(s: string): (r: string)
    ensures |r| <= |s| && r == s[|s| - |r|..]
    ensures r != [] ==> !IsSpace(r[0])
  {
    if s != [] && IsSpace(s[0]) then SkipSpace(s[1..]) else s
  }

  /** The longest prefix of s made of decimal digits. */
  function LeadingDigits(s: string): (r: string)
    ensures |r| <= |s| && r == s[..|r|]
    ensures forall i :: 0 <= i < |r| ==> IsDigit(r[i])
    ensures |r| < |s| ==> !IsDigit(s[|r|])
  {
    if s != [] && IsDigit(s[0]) then [s[0]] + LeadingDigits(s[1..]) else []
  }

  /** The value of a string of decimal digits, most significant first. */
  function DigitsValue(d: string): nat
    requires forall i :: 0 <= i < |d| ==> IsDigit(d[i])
  {
    if d == [] then 0
    else
      var last := d[|d| - 1];
      assert IsDigit(last);
      10 * DigitsValue(d[..|d| - 1]) + (last as int - '0' as int)
  }

  /** The number `strtol(s, NULL, 10)` reads: skip white space, an optional
      sign, then the decimal digits that follow; 0 when there are none. */
  function DecimalValue(s: string): int {
    var t := SkipSpace(s);
    if t != [] && t[0] == '-' then -(DigitsValue(LeadingDigits(t[1..])) as int)
    else if t != [] && t[0] == '+' then DigitsValue(LeadingDigits(t[1..]))
    else DigitsValue(LeadingDigits(t))
  }

  /** `LONG_MIN` and `LONG_MAX` of the 64-bit `long` of an LP64 system. */
  const LongMin: int := -0x8000_0000_0000_0000
  const LongMax: int := 0x7FFF_FFFF_FFFF_FFFF

  /** The 32-bit `int` range. */
  const IntMin: int := -0x8000_0000
  const IntLimit: int := 0x8000_0000

  /** `strtol` returns `LONG_MIN` or `LONG_MAX` for a value out of range. */
  function Saturate(v: int): (r: int)
    ensures LongMin <= r <= LongMax
    ensures LongMin <= v <= LongMax ==> r == v
  {
    if v < LongMin then LongMin else if v > LongMax then LongMax else v
  }

  /** The conversion of a `long` to a 32-bit `int` as GCC defines it: the
      value modulo 2^32, read in two's complement. */
  function ToCInt(v: int): (r: int)
    ensures IntMin <= r < IntLimit
    ensures (v - r) % 0x1_0000_0000 == 0
    ensures IntMin <= v < IntLimit ==> r == v
  {
    var m := v % 0x1_0000_0000;
    if m >= IntLimit then m - 0x1_0000_0000 else m
  }

  /** C's `atoi` as glibc defines it, `(int) strtol(s, NULL, 10)`: the number
      read, saturated to a `long`, then cut to an `int`. */
  function Atoi(s: string): (r: int)
    ensures IntMin <= r < IntLimit
    ensures IntMin <= DecimalValue(s) < IntLimit ==> r == DecimalValue(s)
  {
    ToCInt(Saturate(DecimalValue(s)))
  }

  /** The decimal spelling of a natural number, as `%u` prints it. */
  function NatToString(n: nat): (r: string)
    ensures r != [] && forall i :: 0 <= i < |r| ==> IsDigit(r[i])
  {
    var last := ['0' + (n % 10) as char];
    if n < 10 then last else NatToString(n / 10) + last
  }

  lemma {:induction false} DigitsValueOfNatToString(n: nat)
    ensures DigitsValue(NatToString(n)) == n
  {
    var r := NatToString(n);
    var last := ['0' + (n % 10) as char];
    if n >= 10 {
      DigitsValueOfNatToString(n / 10);
      assert r[..|r| - 1] == NatToString(n / 10);
    } else {
      assert r[..|r| - 1] == [];
    }
  }

  lemma {:induction false} LeadingDigitsOfDigits(d: string, tail: string)
    requires forall i :: 0 <= i < |d| ==> IsDigit(d[i])
    requires tail == [] || !IsDigit(tail[0])
    ensures LeadingDigits(d + tail) == d
  {
    if d != [] {
      var s := d + tail;
      assert s[0] == d[0] && IsDigit(s[0]);
      assert s[1..] == d[1..] + tail;
      LeadingDigitsOfDigits(d[1..], tail);
      assert LeadingDigits(s) == [d[0]] + d[1..];
      assert [d[0]] + d[1..] == d;
    } else {
      assert d + tail == tail;
    }
  }

  /** `atoi` reads back a version number `%u` wrote when it fits an `int`;
      an unsigned number of 2^31 or more comes back negative, and no number
      comes back larger. */
  lemma AtoiNatToString(n: nat)
    ensures n < IntLimit ==> Atoi(NatToString(n)) == n
    ensures IntLimit <= n < 0x1_0000_0000 ==> Atoi(NatToString(n)) == n - 0x1_0000_0000
    ensures Atoi(NatToString(n)) <= n
  {
    DecimalValueOfNatToString(n);
    CIntOfNat(n);
  }

  /** `strtol` reads back the number `%u` wrote. */
  lemma DecimalValueOfNatToString(n: nat)
    ensures DecimalValue(NatToString(n)) == n
  {
    var s := NatToString(n);
    assert SkipSpace(s) == s by { assert IsDigit(s[0]); }
    LeadingDigitsOfDigits(s, []);
    assert s + [] == s;
    DigitsValueOfNatToString(n);
  }

  /** How a natural number comes out of the two conversions of `atoi`. */
  lemma CIntOfNat(n: nat)
    ensures n < IntLimit ==> ToCInt(Saturate(n)) == n
    ensures IntLimit <= n < 0x1_0000_0000 ==> ToCInt(Saturate(n)) == n - 0x1_0000_0000
    ensures ToCInt(Saturate(n)) <= n
  {
    if IntLimit <= n < 0x1_0000_0000 {
      assert n % 0x1_0000_0000 == n;
    }
  }

  // ---------------------------------------------------------------------
  // device_service_cmp

  /** `device_service_cmp(candidate, required, version)`, urc-upnp.c:779-799.
      NULL is handled first: two NULLs compare equal, a NULL candidate is
      smaller and a NULL requirement larger. What the comparison of two strings
      means is `DeviceServiceCmpMeaning`. */
  function DeviceServiceCmp(candidate: Option<string>, required: Option<string>, version: int): (r: int)
    requires required.Some? ==> NulFree(required.value)
    ensures candidate.None? && required.None? ==> r == 0
    ensures candidate.None? && required.Some? ==> r == -1
    ensures candidate.Some? && required.None? ==> r == 1
  {
    if candidate.None? && required.None? then 0
    else if candidate.None? then -1
    else if required.None? then 1
    else
      var c, p := candidate.value, required.value;
      MemCmpIsPrefixTest(c, p);
      var res := MemCmpFrom(c, p, 0);
      if res != 0 then res
      else if Atoi(c[|p|..]) >= version then 0
      else -1
  }

  /** Two strings compare as 0 when the candidate starts with the required
      prefix and the number after it is at least `version`; a version below it
      gives -1 and a different prefix a non-zero result. */
  lemma DeviceServiceCmpMeaning(c: string, p: string, version: int)
    requires NulFree(p)
    ensures DeviceServiceCmp(Some(c), Some(p), version) == 0 <==>
      (StartsWith(c, p) && Atoi(c[|p|..]) >= version)
    ensures StartsWith(c, p) && Atoi(c[|p|..]) < version ==> DeviceServiceCmp(Some(c), Some(p), version) == -1
    ensures !StartsWith(c, p) ==> DeviceServiceCmp(Some(c), Some(p), version) != 0
  {
    MemCmpIsPrefixTest(c, p);
  }

  /** A match is what `device_service_cmp` reports as 0. */
  predicate Matches(candidate: Option<string>, required: string, version: int)
    requires NulFree(required)
  {
    DeviceServiceCmp(candidate, Some(required), version) == 0
  }

  /** Versions are backward compatible: a type URN `<prefix><n>` with n
      below 2^31 meets the requirement `<prefix>` / v exactly when n >= v,
      and below v the result is -1. A version of 2^31 up to 2^32 - 1 reads
      as negative and meets no requirement of version 0 or more. */
  lemma VersionedTypeMatches(prefix: string, n: nat, v: int)
    requires NulFree(prefix)
    ensures n < IntLimit ==> (Matches(Some(prefix + NatToString(n)), prefix, v) <==> n >= v)
    ensures Matches(Some(prefix + NatToString(n)), prefix, v) ==> n >= v
    ensures n < v ==> DeviceServiceCmp(Some(prefix + NatToString(n)), Some(prefix), v) == -1
    ensures IntLimit <= n < 0x1_0000_0000 && v >= 0 ==> DeviceServiceCmp(Some(prefix + NatToString(n)), Some(prefix), v) == -1
  {
    var c := prefix + NatToString(n);
    assert c[..|prefix|] == prefix;
    assert c[|prefix|..] == NatToString(n);
    AtoiNatToString(n);
    DeviceServiceCmpMeaning(c, prefix, v);
  }

  /** A device that meets a requirement also meets every older one. */
  lemma MatchIsDownwardClosed(candidate: Option<string>, required: string, v: int, w: int)
    requires NulFree(required) && w <= v && Matches(candidate, required, v)
    ensures Matches(candidate, required, w)
  {
    DeviceServiceCmpMeaning(candidate.value, required, v);
    DeviceServiceCmpMeaning(candidate.value, required, w);
  }

  /** A type URN with nothing after the prefix reads as version 0, so it never
      meets a requirement of version 1 or more. */
  lemma MissingVersionDoesNotMatch(prefix: string, v: int)
    requires NulFree(prefix) && v >= 1
    ensures DeviceServiceCmp(Some(prefix), Some(prefix), v) == -1
  {
    assert prefix[|prefix|..] == [];
    assert prefix[..|prefix|] == prefix;
    DeviceServiceCmpMeaning(prefix, prefix, v);
  }

  /** The namespace of the standard device and service types (section 2.1 of
      the UPnP Device Architecture 1.0). */
  const SchemasUrn: string := "urn:schemas-upnp-org:"
  const DeviceUrn: string := SchemasUrn + "device:"
  const ServiceUrn: string := SchemasUrn + "service:"
  /** The version-less gateway type the walk looks for. */
  const IgdType: string := DeviceUrn + "InternetGatewayDevice:"

  lemma IgdTypeIsCString()
    ensures NulFree(DeviceUrn) && NulFree(ServiceUrn) && NulFree(IgdType)
  {
    assert NulFree(SchemasUrn) && NulFree("device:") && NulFree("service:");
    assert NulFree("InternetGatewayDevice:");
  }

  /** The examples of the version test: InternetGatewayDevice:2 and :1 meet
      version 1 and :0 does not. */
  lemma IgdVersionExamples()
    ensures NulFree(IgdType)
    ensures Matches(Some(IgdType + "2"), IgdType, 1)
    ensures Matches(Some(IgdType + "1"), IgdType, 1)
    ensures DeviceServiceCmp(Some(IgdType + "0"), Some(IgdType), 1) == -1
  {
    IgdTypeIsCString();
    assert NatToString(2) == "2";
    assert NatToString(1) == "1";
    assert NatToString(0) == "0";
    VersionedTypeMatches(IgdType, 2, 1);
    VersionedTypeMatches(IgdType, 1, 1);
    VersionedTypeMatches(IgdType, 0, 1);
  }

  /** A device of another type is not taken for a gateway. */
  lemma WanDeviceIsNotIgd()
    ensures NulFree(IgdType)
    ensures !Matches(Some("urn:schemas-upnp-org:device:WANDevice:1"), IgdType, 1)
  {
    IgdTypeIsCString();
    var w := "urn:schemas-upnp-org:device:WANDevice:1";
    assert w[29] == 'A' && IgdType[29] == 'n';
    assert !StartsWith(w, IgdType);
    DeviceServiceCmpMeaning(w, IgdType, 1);
  }

  // ---------------------------------------------------------------------
  // g_strsplit and g_strconcat

  /** Index of the first occurrence of c in s, or |s| when there is none. */
  function FirstIndex(s: string, c: char): (i: nat)
    ensures i <= |s|
    ensures i < |s| ==> s[i] == c
    ensures forall j :: 0 <= j < i ==> s[j] != c
    ensures i == |s| <==> c !in s
  {
    if s == [] then 0 else if s[0] == c then 0 else 1 + FirstIndex(s[1..], c)
  }

  /** The fields of a non-empty string cut at every delimiter (empty fields kept). */
  function Fields(s: string, d: char): (r: seq<string>)
    ensures |r| >= 1
    decreases |s|
  {
    var i := FirstIndex(s, d);
    if i == |s| then [s] else [s[..i]] + Fields(s[i + 1..], d)
  }

  /** `g_strsplit(s, d, 0)`: no field at all for the empty string. */
  function Split(s: string, d: char): seq<string> {
    if s == [] then [] else Fields(s, d)
  }

  /** `g_strsplit(s, d, 2)`: at most two fields, cut at the first delimiter. */
  function SplitOnce(s: string, d: char): seq<string> {
    var i := FirstIndex(s, d);
    if s == [] then [] else if i == |s| then [s] else [s[..i], s[i + 1..]]
  }

  /** `g_strconcat`: NULL when its first argument is NULL, otherwise the
      concatenation of its arguments up to the first NULL. */
  function Concat(args: seq<Option<string>>): Option<string> {
    if args == [] || args[0].None? then None else Some(ConcatUpToNull(args))
  }

  function ConcatUpToNull(args: seq<Option<string>>): string {
    if args == [] || args[0].None? then [] else args[0].value + ConcatUpToNull(args[1..])
  }

  lemma ConcatCons(x: string, rest: seq<Option<string>>)
    ensures ConcatUpToNull([Some(x)] + rest) == x + ConcatUpToNull(rest)
  {
    assert ([Some(x)] + rest)[1..] == rest;
  }

  lemma ConcatFour(a: string, b: string, c: string, d: string)
    ensures Concat([Some(a), Some(b), Some(c), Some(d)]) == Some(a + b + c + d)
  {
    var r3: seq<Option<string>> := [Some(d)];
    var r2 := [Some(c)] + r3;
    var r1 := [Some(b)] + r2;
    var r0 := [Some(a)] + r1;
    ConcatCons(d, []);
    assert r3 == [Some(d)] + [];
    ConcatCons(c, r3);
    ConcatCons(b, r2);
    ConcatCons(a, r1);
    assert r0 == [Some(a), Some(b), Some(c), Some(d)];
    assert ConcatUpToNull(r0) == a + (b + (c + (d + [])));
    assert a + (b + (c + (d + []))) == a + b + c + d;
  }

  lemma ConcatStopsAtNull(a: string, b: string, rest: seq<Option<string>>)
    ensures Concat([Some(a), Some(b), None] + rest) == Some(a + b)
  {
    var r2 := [None] + rest;
    var r1 := [Some(b)] + r2;
    var r0 := [Some(a)] + r1;
    ConcatCons(b, r2);
    ConcatCons(a, r1);
    assert r0 == [Some(a), Some(b), None] + rest;
    assert ConcatUpToNull(r0) == a + (b + []);
    assert a + (b + []) == a + b;
  }

  /** Field i of a `g_strsplit` vector; past the last field the vector holds its
      NULL terminator. */
  function FieldOrNull(fields: seq<string>, i: nat): Option<string> {
    if i < |fields| then Some(fields[i]) else None
  }

  // ---------------------------------------------------------------------
  // parse_presentation_url

  /** The scheme and host of a location such as
      "http://192.168.1.1:5000/rootDesc.xml": everything before its second ':'
      ("http://192.168.1.1"), or all of it when it has only one. */
  function UpToSecondColon(location: string): (r: string)
    requires ':' in location
    ensures StartsWith(location, r)
  {
    var i := FirstIndex(location, ':');
    var j := FirstIndex(location[i + 1..], ':');
    location[..i + 1 + j]
  }

  /** The first field is the text before the first delimiter. */
  lemma FieldsFirst(s: string, d: char)
    ensures Fields(s, d)[0] == s[..FirstIndex(s, d)]
  {
    if FirstIndex(s, d) == |s| {
      assert s[..|s|] == s;
    }
  }

  /** With a delimiter present, the second field is the first field of the
      text after it. */
  lemma FieldsSecond(s: string, d: char)
    requires d in s
    ensures |Fields(s, d)| >= 2 && Fields(s, d)[1] == Fields(s[FirstIndex(s, d) + 1..], d)[0]
  {
  }

  /** The first two fields of the location, joined again by ':', are the text
      before its second ':'. */
  lemma FirstTwoFields(location: string)
    requires ':' in location
    ensures var f := Split(location, ':');
      |f| >= 2 && f[0] + ":" + f[1] == UpToSecondColon(location)
  {
    var i := FirstIndex(location, ':');
    var rest := location[i + 1..];
    var j := FirstIndex(rest, ':');
    var f := Split(location, ':');
    assert f == Fields(location, ':');
    FieldsFirst(location, ':');
    FieldsSecond(location, ':');
    FieldsFirst(rest, ':');
    assert f[0] == location[..i] && f[1] == rest[..j];
    assert UpToSecondColon(location) == location[..i + 1 + j];
    PrefixThroughIndex(location, i, j);
  }

  /** Cutting a string just before and just after index i and rejoining the
      two parts around s[i] gives the prefix again. */
  lemma PrefixThroughIndex(s: string, i: nat, k: nat)
    requires i < |s| && i + 1 + k <= |s|
    ensures s[..i] + [s[i]] + s[i + 1..][..k] == s[..i + 1 + k]
  {
  }

  /** `parse_presentation_url(url, location)`, urc-upnp.c:732-766. A URL that
      starts with "http" is kept; a missing one becomes the location's scheme and
      host followed by "/"; any other one is taken as a path on that host. A
      location without ':' has no second field, so the rebuilt URL stops right
      after its first field and ':'. The location of a device description is
      never empty; the source would read past the split vector if it were. */
  function ParsePresentationUrl(url: Option<string>, location: string): (r: Option<string>)
    requires location != []
    ensures url.Some? && StartsWith(url.value, "http") ==> r == url
    ensures ':' in location && url.None? ==> r == Some(UpToSecondColon(location) + "/")
    ensures ':' in location && url.Some? && !StartsWith(url.value, "http") ==>
      r == Some(UpToSecondColon(location) + url.value)
    ensures ':' !in location && !(url.Some? && StartsWith(url.value, "http")) ==> r == Some(location + ":")
  {
    if url.Some? && StartsWith(url.value, "http") then url
    else
      var f := Split(location, ':');
      var tail := if url.None? then "/" else url.value;
      var out := Concat([FieldOrNull(f, 0), Some(":"), FieldOrNull(f, 1), Some(tail)]);
      if ':' in location then
        FirstTwoFields(location);
        ConcatFour(f[0], ":", f[1], tail);
        out
      else
        assert f == [location];
        ConcatStopsAtNull(location, ":", [Some(tail)]);
        assert [FieldOrNull(f, 0), Some(":"), FieldOrNull(f, 1), Some(tail)]
               == [Some(location), Some(":"), None] + [Some(tail)];
        out
  }

  /** For a location "<scheme>:<host>:<port and path>" the scheme and host are
      the text before the second ':'. */
  lemma HostOfLocation(scheme: string, host: string, rest: string)
    requires ':' !in scheme && ':' !in host
    ensures UpToSecondColon(scheme + ":" + host + ":" + rest) == scheme + ":" + host
  {
    var loc := scheme + ":" + host + ":" + rest;
    FirstIndexOfJoin(scheme, ':', host + ":" + rest);
    assert loc == scheme + [':'] + (host + ":" + rest);
    assert loc[|scheme| + 1..] == host + [':'] + rest;
    FirstIndexOfJoin(host, ':', rest);
    assert loc[..|scheme| + 1 + |host|] == scheme + ":" + host;
  }

  /** A router that gives no presentation URL is reached at the root of the
      host its description came from. */
  lemma MissingPresentationUrlIsHostRoot(scheme: string, host: string, rest: string)
    requires scheme != [] && ':' !in scheme && ':' !in host
    ensures ParsePresentationUrl(None, scheme + ":" + host + ":" + rest) == Some(scheme + ":" + host + "/")
  {
    HostOfLocation(scheme, host, rest);
  }

  /** A relative presentation URL is a path on the description's host. */
  lemma RelativePresentationUrlIsOnHost(scheme: string, host: string, rest: string, path: string)
    requires scheme != [] && ':' !in scheme && ':' !in host
    requires !StartsWith(path, "http")
    ensures ParsePresentationUrl(Some(path), scheme + ":" + host + ":" + rest) == Some(scheme + ":" + host + path)
  {
    HostOfLocation(scheme, host, rest);
  }

  // ---------------------------------------------------------------------
  // get_default_connection_service

  /** The value `get_default_connection_service` keeps from the reply of
      GetDefaultConnectionService, urc-upnp.c:558-589: for a non-empty value
      "<device>,<serviceId>" the text after the first comma; nothing when the
      value has no comma, is empty or missing, or the action failed. */
  function DefaultConnectionService(reply: Reply<Option<string>>): (r: Option<string>)
    ensures r.Some? <==> reply.Ok? && reply.value.Some? && ',' in reply.value.value
    ensures r.Some? ==> var buf := reply.value.value;
      exists i :: 0 <= i < |buf| && buf[i] == ',' && ',' !in buf[..i] && r.value == buf[i + 1..]
  {
    if reply.Ok? && reply.value.Some? && reply.value.value != "" then
      var buf := reply.value.value;
      var parts := SplitOnce(buf, ',');
      var i := FirstIndex(buf, ',');
      assert i < |buf| ==> ',' !in buf[..i];
      FieldOrNull(parts, 1)
    else None
  }

  /** Splitting undoes joining: the service named after the first comma is the
      one the router put there, whatever the device part holds. */
  lemma DefaultConnectionServiceOfJoin(device: string, serviceId: string)
    requires ',' !in device
    ensures DefaultConnectionService(Ok(Some(device + "," + serviceId))) == Some(serviceId)
  {
    var buf := device + "," + serviceId;
    FirstIndexOfJoin(device, ',', serviceId);
    assert buf[|device| + 1..] == serviceId;
  }

  /** The first c of `prefix + [c] + rest` is the one after the prefix. */
  lemma {:induction false} FirstIndexOfJoin(prefix: string, c: char, rest: string)
    requires c !in prefix
    ensures FirstIndex(prefix + [c] + rest, c) == |prefix|
  {
    if prefix != [] {
      assert (prefix + [c] + rest)[1..] == prefix[1..] + [c] + rest;
      FirstIndexOfJoin(prefix[1..], c, rest);
    }
  }
}
