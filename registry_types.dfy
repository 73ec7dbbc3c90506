/**
 * pkg/registry/types.go: the asset `Status` column scanner, the `Secret` string that hides
 * itself when printed, and the `Endpoint` getters that pull scheme, host and port out of
 * texts such as "http://db:5432", "db:5432" or "[::1]:8080".
 */
module RegistryTypes {
  import opened Wrappers
  import opened GoStrings
  import GoErrors
  import HexCodec

  const StatusPending: string := "pending"
  const StatusReady: string := "ready"
  const StatusRejected: string := "rejected"
  const StatusDeleted: string := "deleted"

  // ---------------------------------------------------------------- Status.Scan

  /** What the SQL driver hands to `Scan`; a value of any other Go type carries its `%T` name. */
  datatype ScanValue = NilValue | BytesValue(bytes: seq<HexCodec.byte>) | StringValue(text: string)
                     | OtherValue(typeName: string)

  /** `string(v)` of a byte slice, one character per byte. */
  function BytesToString(b: seq<HexCodec.byte>): (r: string)
    ensures |r| == |b| && forall i :: 0 <= i < |b| ==> r[i] as int == b[i]
  {
    seq(|b|, i requires 0 <= i < |b| => b[i] as char)
  }

  /** `Status.Value`: the driver value written for a status is its text. */
  function StatusValue(s: string): ScanValue
  {
    StringValue(s)
  }

  /** The status column as seen through a `*Status`. */
  class StatusCell {
    var status: string

    constructor (status: string)
      ensures this.status == status
    {
      this.status := status;
    }

    /** `Status.Scan`: NULL reads as pending, text and bytes are copied, anything else fails. */
    method Scan(v: ScanValue) returns (err: Option<GoErrors.Error>)
      modifies this
      ensures v.NilValue? ==> status == StatusPending && err.None?
      ensures v.StringValue? ==> status == v.text && err.None?
      ensures v.BytesValue? ==> status == BytesToString(v.bytes) && err.None?
      ensures v.OtherValue? ==>
        status == old(status) && err == Some(GoErrors.Plain("cannot scan type " + v.typeName + " into Status"))
    {
      match v
      case NilValue => status := StatusPending; err := None;
      case BytesValue(b) => status := BytesToString(b); err := None;
      case StringValue(t) => status := t; err := None;
      case OtherValue(t) => err := Some(GoErrors.Plain("cannot scan type " + t + " into Status"));
    }
  }

  /** Writing a status and scanning it back gives the same status. */
  method ScanValueRoundTrip(s: string, cell: StatusCell) returns (err: Option<GoErrors.Error>)
    modifies cell
    ensures cell.status == s && err.None?
  {
    err := cell.Scan(StatusValue(s));
  }

  // ---------------------------------------------------------------- Secret

  /** `Secret.String`: what `%s`, `%v` and loggers print for a secret. */
  function SecretString(s: string): (r: string)
    ensures r == "REDACTED"
  {
    "REDACTED"
  }

  /** `Secret.Value`: the raw text. */
  function SecretValue(s: string): (r: string)
    ensures r == s
  {
    s
  }

  /** Printing never tells two secrets apart, while Value always does. */
  lemma SecretHidesValue(a: string, b: string)
    ensures SecretString(a) == SecretString(b)
    ensures SecretValue(a) == SecretValue(b) <==> a == b
  {
  }

  /**
   * `PresignedUrl`: a presigned S3 request. The URL is a secret; times are Unix nanoseconds and
   * the lifetime is in nanoseconds.
   */
  datatype PresignedUrl = PresignedUrl(url: string, expiresAt: int, expiresIn: int, checksum: string,
                                       key: string, operation: string, bucket: string)

  // ---------------------------------------------------------------- Endpoint

  const SchemeSep: string := "://"

  /** `removeScheme`: everything after the first "://", or the whole text when there is none. */
  function RemoveScheme(e: string): (r: string)
    ensures Index(e, SchemeSep) == -1 ==> r == e
    ensures Index(e, SchemeSep) >= 0 ==> e == e[..Index(e, SchemeSep)] + SchemeSep + r
  {
    var k := Index(e, SchemeSep);
    if k == -1 then e else e[k + 3..]
  }

  /** A parsed port in 1..65535, or the default. */
  function PortOr(text: string, defaultPort: int): (r: int)
    ensures r == defaultPort || 1 <= r <= 65535
    ensures r != defaultPort ==> Atoi(text) == Some(r)
  {
    match Atoi(text)
    case Some(p) => if 0 < p <= 65535 then p else defaultPort
    case None => defaultPort
  }

  /**
   * `Endpoint.GetHost`: the blank endpoint gives the default; otherwise the scheme is removed
   * and `HostOf` picks the host out of what is left.
   */
  function GetHost(e: string, defaultHost: string): (r: string)
    ensures TrimSpace(e) == [] ==> r == defaultHost
    ensures TrimSpace(e) != [] ==> r == HostOf(RemoveScheme(TrimSpace(e)), defaultHost)
  {
    var t := TrimSpace(e);
    if t == [] then defaultHost else HostOf(RemoveScheme(t), defaultHost)
  }

  /** The host of a scheme-less, trimmed endpoint. */
  function HostOf(s: string, defaultHost: string): string
  {
    if HasPrefix(s, "[") then
      var k := IndexChar(s, ']');
      if k == -1 then defaultHost
      else
        assert s[0] == '[';
        s[1..k]
    else
      var c := LastIndexChar(s, ':');
      if c != -1 && Atoi(s[c + 1..]).Some? then s[..c] else s
  }

  /** For "[...": the text strictly between '[' and the first ']', or the default without ']'. */
  lemma HostOfBracketed(s: string, defaultHost: string)
    requires HasPrefix(s, "[")
    ensures ']' !in s ==> HostOf(s, defaultHost) == defaultHost
    ensures ']' in s ==> var r := HostOf(s, defaultHost);
      |r| + 2 <= |s| && s[..|r| + 2] == "[" + r + "]" && ']' !in r
  {
    if ']' in s {
      var k := IndexChar(s, ']');
      assert s[0] == '[';
      assert k >= 1;
      assert s[..k + 1] == "[" + s[1..k] + "]";
    }
  }

  /** Otherwise: the part before the last ':' when a number follows it, else everything. */
  lemma HostOfPlain(s: string, defaultHost: string)
    requires !HasPrefix(s, "[")
    ensures var r := HostOf(s, defaultHost);
      if ':' in s && Atoi(s[LastIndexChar(s, ':') + 1..]).Some?
      then |r| < |s| && s == r + ":" + s[|r| + 1..] && ':' !in s[|r| + 1..]
      else r == s
  {
    if ':' in s {
      var c := LastIndexChar(s, ':');
      assert s == s[..c] + ":" + s[c + 1..];
    }
  }

  /**
   * `Endpoint.GetPort`: a port in 1..65535 after "]:" for a bracketed address, or after the
   * last ':' otherwise; every other case gives the default.
   */
  function GetPort(e: string, defaultPort: int): (r: int)
    ensures r == defaultPort || 1 <= r <= 65535
    ensures TrimSpace(e) == [] ==> r == defaultPort
    ensures TrimSpace(e) != [] ==> r == PortOf(RemoveScheme(TrimSpace(e)), defaultPort)
  {
    var t := TrimSpace(e);
    if t == [] then defaultPort else PortOf(RemoveScheme(t), defaultPort)
  }

  /** The port of a scheme-less, trimmed endpoint. */
  function PortOf(s: string, defaultPort: int): (r: int)
    ensures r == defaultPort || 1 <= r <= 65535
  {
    if HasPrefix(s, "[") then
      var k := IndexChar(s, ']');
      if k != -1 && k + 1 < |s| && s[k + 1] == ':' then PortOr(s[k + 2..], defaultPort)
      else defaultPort
    else
      var c := LastIndexChar(s, ':');
      if c != -1 then PortOr(s[c + 1..], defaultPort) else defaultPort
  }

  /** Without a ':' (or, for "[...", without ']') there is no port to find. */
  lemma PortOfMissing(s: string, defaultPort: int)
    ensures !HasPrefix(s, "[") && ':' !in s ==> PortOf(s, defaultPort) == defaultPort
    ensures HasPrefix(s, "[") && ']' !in s ==> PortOf(s, defaultPort) == defaultPort
  {
  }

  /** `Endpoint.GetScheme`: the lower-cased text before the first "://", else the default. */
  function GetScheme(e: string, defaultScheme: string): (r: string)
    ensures Index(TrimSpace(e), SchemeSep) == -1 ==> r == defaultScheme
    ensures Index(TrimSpace(e), SchemeSep) >= 0 ==>
      |r| == Index(TrimSpace(e), SchemeSep) && forall i :: 0 <= i < |r| ==> !IsUpper(r[i])
  {
    var t := TrimSpace(e);
    if t == [] then defaultScheme
    else
      var k := Index(t, SchemeSep);
      if k == -1 then defaultScheme else ToLower(t[..k])
  }

  /** Text without '/' holds no "://". */
  lemma NoSlashNoScheme(s: string)
    requires '/' !in s
    ensures Index(s, SchemeSep) == -1
  {
    forall j | 0 <= j <= |s| ensures !OccursAt(s, SchemeSep, j) {
      if j + 3 <= |s| {
        assert SchemeSep[1] == '/';
        assert s[j..j + 3][1] == s[j + 1];
        assert s[j + 1] in s;
      }
    }
  }

  /** A scheme without ':' ends at the first "://". */
  lemma SchemeSepIndex(scheme: string, rest: string)
    requires ':' !in scheme
    ensures Index(scheme + SchemeSep + rest, SchemeSep) == |scheme|
  {
    var e := scheme + SchemeSep + rest;
    assert e[|scheme|..|scheme| + 3] == SchemeSep;
    forall j | 0 <= j < |scheme| ensures !OccursAt(e, SchemeSep, j) {
      assert e[j..j + 3][0] == e[j] == scheme[j];
      assert scheme[j] in scheme;
    }
    assert OccursAt(e, SchemeSep, |scheme|);
  }

  /** A trimmed endpoint without '/' has no scheme, so host and port come straight from it. */
  lemma PlainEndpoint(s: string, defaultHost: string, defaultPort: int)
    requires s != [] && !IsSpace(s[0]) && !IsSpace(s[|s| - 1]) && '/' !in s
    ensures GetHost(s, defaultHost) == HostOf(s, defaultHost)
    ensures GetPort(s, defaultPort) == PortOf(s, defaultPort)
  {
    TrimSpaceOfTrimmed(s);
    NoSlashNoScheme(s);
  }

  /** `d` is a run of decimal digits that parses to `port`. */
  predicate PortText(d: string, port: int)
  {
    d != [] && (forall i :: 0 <= i < |d| ==> IsDigit(d[i])) && Atoi(d) == Some(port)
  }

  /** The decimal rendering of a port is such a run. */
  lemma PortDigits(port: int)
    requires 1 <= port <= 65535
    ensures PortText(Itoa(port), port)
  {
    var d := Itoa(port);
    forall i | 0 <= i < |d| ensures IsDigit(d[i]) {
    }
    AtoiItoa(port);
  }

  /** A digit run holds none of the characters the endpoint syntax looks for. */
  lemma PortTextPlain(d: string, port: int)
    requires PortText(d, port)
    ensures '/' !in d && ']' !in d && ':' !in d && !IsSpace(d[|d| - 1])
  {
    forall c | c in d ensures IsDigit(c) {
      var i :| 0 <= i < |d| && d[i] == c;
    }
  }

  lemma HostPortOf(host: string, port: int, defaultHost: string, defaultPort: int)
    requires ':' !in host && (host == [] || host[0] != '[')
    requires 1 <= port <= 65535
    ensures HostOf(host + ":" + Itoa(port), defaultHost) == host
    ensures PortOf(host + ":" + Itoa(port), defaultPort) == port
  {
    PortDigits(port);
    HostDigitsOf(host, Itoa(port), port, defaultHost, defaultPort);
  }

  lemma HostDigitsOf(host: string, d: string, port: int, defaultHost: string, defaultPort: int)
    requires ':' !in host && (host == [] || host[0] != '[')
    requires PortText(d, port) && 1 <= port <= 65535
    ensures HostOf(host + ":" + d, defaultHost) == host
    ensures PortOf(host + ":" + d, defaultPort) == port
  {
    PortTextPlain(d, port);
    LastColon(host, d);
    HostAtColon(host + ":" + d, |host|, defaultHost);
    PortAtColon(host + ":" + d, |host|, defaultPort);
  }

  /** Without a leading '[', the host is the text before the last ':' when a number follows it. */
  lemma HostAtColon(s: string, c: nat, defaultHost: string)
    requires !HasPrefix(s, "[") && c < |s| && LastIndexChar(s, ':') == c && Atoi(s[c + 1..]).Some?
    ensures HostOf(s, defaultHost) == s[..c]
  {
  }

  /** Without a leading '[', the port is read from the text after the last ':'. */
  lemma PortAtColon(s: string, c: nat, defaultPort: int)
    requires !HasPrefix(s, "[") && c < |s| && LastIndexChar(s, ':') == c
    ensures PortOf(s, defaultPort) == PortOr(s[c + 1..], defaultPort)
  {
  }

  /** In "host:d", with no ':' in host or d, the last ':' is the one after host. */
  lemma LastColon(host: string, d: string)
    requires ':' !in host && ':' !in d && (host == [] || host[0] != '[')
    ensures var s := host + ":" + d;
      !HasPrefix(s, "[") && LastIndexChar(s, ':') == |host| && s[|host| + 1..] == d && s[..|host|] == host
  {
    var s := host + ":" + d;
    assert s[0] != '[';
    assert s[|host|] == ':' && s[|host| + 1..] == d;
    LastIndexOfSuffix(s, |host|, ':');
  }

  /** "host:port" gives back the host and the port, for hosts with no ':', '/' or leading '['. */
  lemma HostPortRoundTrip(host: string, port: int, defaultHost: string, defaultPort: int)
    requires ':' !in host && '/' !in host
    requires host == [] || (!IsSpace(host[0]) && host[0] != '[')
    requires 1 <= port <= 65535
    ensures GetHost(host + ":" + Itoa(port), defaultHost) == host
    ensures GetPort(host + ":" + Itoa(port), defaultPort) == port
  {
    PortDigits(port);
    HostDigitsRoundTrip(host, Itoa(port), port, defaultHost, defaultPort);
  }

  lemma HostDigitsRoundTrip(host: string, d: string, port: int, defaultHost: string, defaultPort: int)
    requires ':' !in host && '/' !in host
    requires host == [] || (!IsSpace(host[0]) && host[0] != '[')
    requires PortText(d, port) && 1 <= port <= 65535
    ensures GetHost(host + ":" + d, defaultHost) == host
    ensures GetPort(host + ":" + d, defaultPort) == port
  {
    var s := host + ":" + d;
    PortTextPlain(d, port);
    assert s[|s| - 1] == d[|d| - 1];
    assert '/' !in s;
    PlainEndpoint(s, defaultHost, defaultPort);
    HostDigitsOf(host, d, port, defaultHost, defaultPort);
  }

  lemma BracketedOf(addr: string, port: int, defaultHost: string, defaultPort: int)
    requires ']' !in addr
    requires 1 <= port <= 65535
    ensures HostOf("[" + addr + "]:" + Itoa(port), defaultHost) == addr
    ensures PortOf("[" + addr + "]:" + Itoa(port), defaultPort) == port
    ensures HostOf("[" + addr + "]", defaultHost) == addr
    ensures PortOf("[" + addr + "]", defaultPort) == defaultPort
  {
    BracketedBareOf(addr, defaultHost, defaultPort);
    PortDigits(port);
    BracketedPortOf(addr, Itoa(port), port, defaultHost, defaultPort);
  }

  lemma BracketedBareOf(addr: string, defaultHost: string, defaultPort: int)
    requires ']' !in addr
    ensures HostOf("[" + addr + "]", defaultHost) == addr
    ensures PortOf("[" + addr + "]", defaultPort) == defaultPort
  {
    BracketIndex(addr, "");
    assert "[" + addr + "]" + "" == "[" + addr + "]";
  }

  lemma BracketedPortOf(addr: string, d: string, port: int, defaultHost: string, defaultPort: int)
    requires ']' !in addr
    requires PortText(d, port) && 1 <= port <= 65535
    ensures HostOf("[" + addr + "]:" + d, defaultHost) == addr
    ensures PortOf("[" + addr + "]:" + d, defaultPort) == port
  {
    var full := "[" + addr + "]:" + d;
    assert full == "[" + addr + "]" + (":" + d);
    BracketIndex(addr, ":" + d);
    assert full[|addr| + 1] == ']' && full[|addr| + 2] == ':';
    assert full[|addr| + 3..] == d;
  }

  /** "[addr]:port" and "[addr]" give back the address, and the port or the default. */
  lemma BracketedRoundTrip(addr: string, port: int, defaultHost: string, defaultPort: int)
    requires ']' !in addr && '/' !in addr
    requires 1 <= port <= 65535
    ensures GetHost("[" + addr + "]:" + Itoa(port), defaultHost) == addr
    ensures GetPort("[" + addr + "]:" + Itoa(port), defaultPort) == port
    ensures GetHost("[" + addr + "]", defaultHost) == addr
    ensures GetPort("[" + addr + "]", defaultPort) == defaultPort
  {
    PortDigits(port);
    var d := Itoa(port);
    var bare := "[" + addr + "]";
    PlainEndpoint(bare, defaultHost, defaultPort);
    BracketedBareOf(addr, defaultHost, defaultPort);
    BracketedDigitsRoundTrip(addr, d, port, defaultHost, defaultPort);
  }

  lemma BracketedDigitsRoundTrip(addr: string, d: string, port: int, defaultHost: string, defaultPort: int)
    requires ']' !in addr && '/' !in addr
    requires PortText(d, port) && 1 <= port <= 65535
    ensures GetHost("[" + addr + "]:" + d, defaultHost) == addr
    ensures GetPort("[" + addr + "]:" + d, defaultPort) == port
  {
    var full := "[" + addr + "]:" + d;
    PortTextPlain(d, port);
    assert full[|full| - 1] == d[|d| - 1];
    assert '/' !in full;
    PlainEndpoint(full, defaultHost, defaultPort);
    BracketedPortOf(addr, d, port, defaultHost, defaultPort);
  }

  /** The first ']' of "[addr]..." closes addr when addr holds none. */
  lemma BracketIndex(addr: string, rest: string)
    requires ']' !in addr
    ensures var s := "[" + addr + "]" + rest;
      IndexChar(s, ']') == |addr| + 1 && s[1..|addr| + 1] == addr && HasPrefix(s, "[")
  {
    var s := "[" + addr + "]" + rest;
    assert s[..|addr| + 1] == "[" + addr;
    assert s[|addr| + 1] == ']';
  }

  /** "scheme://rest" is its own trim and loses exactly "scheme://" to RemoveScheme. */
  lemma SchemeStrip(scheme: string, rest: string)
    requires ':' !in scheme && scheme != [] && !IsSpace(scheme[0])
    requires rest == [] || !IsSpace(rest[|rest| - 1])
    ensures var e := scheme + SchemeSep + rest;
      TrimSpace(e) == e && Index(e, SchemeSep) == |scheme| && RemoveScheme(e) == rest
  {
    var e := scheme + SchemeSep + rest;
    assert e[|e| - 1] == if rest == [] then '/' else rest[|rest| - 1];
    TrimSpaceOfTrimmed(e);
    SchemeSepIndex(scheme, rest);
    assert e[|scheme| + 3..] == rest;
  }

  /**
   * A leading "scheme://" changes neither host nor port, as long as the rest is trimmed and
   * holds no second "://".
   */
  lemma SchemeIgnored(scheme: string, rest: string, defaultHost: string, defaultPort: int)
    requires ':' !in scheme && scheme != [] && !IsSpace(scheme[0])
    requires rest != [] && !IsSpace(rest[0]) && !IsSpace(rest[|rest| - 1])
    requires Index(rest, SchemeSep) == -1
    ensures GetHost(scheme + SchemeSep + rest, defaultHost) == GetHost(rest, defaultHost)
    ensures GetPort(scheme + SchemeSep + rest, defaultPort) == GetPort(rest, defaultPort)
  {
    SchemeStrip(scheme, rest);
    assert RemoveScheme(rest) == rest;
    TrimSpaceOfTrimmed(rest);
  }


  /** GetScheme returns the text before "://" in lower case. */
  lemma SchemeLowered(scheme: string, rest: string, defaultScheme: string)
    requires ':' !in scheme && scheme != [] && !IsSpace(scheme[0])
    requires rest == [] || !IsSpace(rest[|rest| - 1])
    ensures GetScheme(scheme + SchemeSep + rest, defaultScheme) == ToLower(scheme)
  {
    var e := scheme + SchemeSep + rest;
    SchemeStrip(scheme, rest);
    assert e[..|scheme|] == scheme;
  }

  /**
   * "scheme://host:port", as in "http://db:5432": the host, the port and the lower-cased
   * scheme all come back.
   */
  lemma SchemeHostPort(scheme: string, host: string, port: int, defaultHost: string,
                       defaultPort: int, defaultScheme: string)
    requires ':' !in scheme && scheme != [] && !IsSpace(scheme[0])
    requires ':' !in host && '/' !in host && host != [] && !IsSpace(host[0]) && host[0] != '['
    requires 1 <= port <= 65535
    ensures var e := scheme + SchemeSep + (host + ":" + Itoa(port));
      GetHost(e, defaultHost) == host && GetPort(e, defaultPort) == port
      && GetScheme(e, defaultScheme) == ToLower(scheme)
  {
    PortDigits(port);
    SchemeHostDigits(scheme, host, Itoa(port), port, defaultHost, defaultPort);
    SchemeDigitsLowered(scheme, host, Itoa(port), port, defaultScheme);
  }

  lemma SchemeHostDigits(scheme: string, host: string, d: string, port: int, defaultHost: string,
                         defaultPort: int)
    requires ':' !in scheme && scheme != [] && !IsSpace(scheme[0])
    requires ':' !in host && '/' !in host && host != [] && !IsSpace(host[0]) && host[0] != '['
    requires PortText(d, port) && 1 <= port <= 65535
    ensures var e := scheme + SchemeSep + (host + ":" + d);
      GetHost(e, defaultHost) == host && GetPort(e, defaultPort) == port
  {
    var rest := host + ":" + d;
    PlainRest(host, d, port);
    HostDigitsRoundTrip(host, d, port, defaultHost, defaultPort);
    SchemeIgnored(scheme, rest, defaultHost, defaultPort);
  }

  lemma SchemeDigitsLowered(scheme: string, host: string, d: string, port: int, defaultScheme: string)
    requires ':' !in scheme && scheme != [] && !IsSpace(scheme[0])
    requires ':' !in host && '/' !in host && host != [] && !IsSpace(host[0]) && host[0] != '['
    requires PortText(d, port)
    ensures GetScheme(scheme + SchemeSep + (host + ":" + d), defaultScheme) == ToLower(scheme)
  {
    PlainRest(host, d, port);
    SchemeLowered(scheme, host + ":" + d, defaultScheme);
  }

  /** "host:d" is trimmed at both ends and holds no "://". */
  lemma PlainRest(host: string, d: string, port: int)
    requires '/' !in host && host != [] && !IsSpace(host[0])
    requires PortText(d, port)
    ensures var rest := host + ":" + d;
      rest != [] && !IsSpace(rest[0]) && !IsSpace(rest[|rest| - 1]) && Index(rest, SchemeSep) == -1
  {
    var rest := host + ":" + d;
    PortTextPlain(d, port);
    assert rest[|rest| - 1] == d[|d| - 1];
    assert '/' !in rest;
    NoSlashNoScheme(rest);
  }




  /** A bare "scheme://" is not blank, so its host is "" rather than the default. */
  lemma SchemeOnlyHost(scheme: string, defaultHost: string, defaultPort: int)
    requires ':' !in scheme && scheme != [] && !IsSpace(scheme[0])
    ensures GetHost(scheme + SchemeSep, defaultHost) == ""
    ensures GetPort(scheme + SchemeSep, defaultPort) == defaultPort
  {
    SchemeStrip(scheme, "");
    assert scheme + SchemeSep + "" == scheme + SchemeSep;
  }
}
