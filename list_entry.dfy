/** list/entry.go: blacklisted entries, the three entry types and their
    validators. `net.ParseIP` and `url.ParseRequestURI` are parameters: the
    first says whether a string parses as an IP address, the second gives
    the host part of a request URI or the parser's error. */
module ListEntry {
  import opened Base
  import opened GoStrings

  /** BlacklistedEntryType. */
  type EntryType = string

  const HostnameType: EntryType := "hostname"
  const IPType: EntryType := "ip"
  const URLType: EntryType := "url"

  /** A value of an ExtraData map: the sources store strings and, in the
      myip.ms parsers, an integer id. */
  datatype Extra = Str(s: string) | Int(n: int)

  /** BlacklistedEntry. The `List` reference is represented by the source
      list's name, the only thing read from it downstream. */
  datatype BlacklistedEntry = BlacklistedEntry(index: string, source: string, extraData: map<string, Extra>)

  /** NewBlacklistedEntry: the given index and source, no extra data. */
  function NewBlacklistedEntry(index: string, source: string): (e: BlacklistedEntry)
    ensures e.index == index && e.source == source && e.extraData == map[]
  {
    BlacklistedEntry(index, source, map[])
  }

  /** Why a validator rejected an index (one per `errors.New` of the source). */
  datatype Reason =
    | HostnameLength
    | InvalidChar(c: char)
    | LabelLength
    | LabelLeadingMinus
    | LabelTrailingMinus
    | IPParse
    | URLParse(cause: Error)
    | PortParse
    | PortRange
    | URLHost

  /** A validator's answer: nil or an error. */
  datatype Check = Pass | Fail(reason: Reason)

  predicate IsHostnameChar(c: char)
  {
    ('A' <= c <= 'Z') || ('a' <= c <= 'z') || ('0' <= c <= '9') || c == '-' || c == '.' || c == '_'
  }

  /** `strings.IndexFunc` with the "not a hostname character" test: the
      first offending position, or -1. */
  function FirstSpecialChar(h: string): (i: int)
    ensures -1 <= i < |h|
    ensures i == -1 <==> forall k :: 0 <= k < |h| ==> IsHostnameChar(h[k])
    ensures i >= 0 ==> !IsHostnameChar(h[i]) && forall k :: 0 <= k < i ==> IsHostnameChar(h[k])
  {
    if |h| == 0 then -1
    else if !IsHostnameChar(h[0]) then 0
    else
      var r := FirstSpecialChar(h[1..]);
      if r == -1 then -1 else r + 1
  }

  /** The loop over the labels of validateHostname, returning the first
      failure. */
  function CheckLabels(labels: seq<string>): Check
  {
    if |labels| == 0 then Pass
    else
      var l := labels[0];
      if |l| > 63 || |l| < 1 then Fail(LabelLength)
      else if l[0] == '-' then Fail(LabelLeadingMinus)
      else if l[|l| - 1] == '-' then Fail(LabelTrailingMinus)
      else CheckLabels(labels[1..])
  }

  /** validateHostname. Its length bound is on `len`, the length in UTF-8
      bytes, and its invalid-character error prints with `%c` the byte at
      the offending index, that is the first byte of the offending
      character, read as a Latin-1 character. */
  function ValidateHostname(h: string): Check
  {
    if ByteLength(h) > 253 || ByteLength(h) < 1 then Fail(HostnameLength)
    else
      var i := FirstSpecialChar(h);
      if i != -1 then Fail(InvalidChar(Utf8FirstByte(h[i]) as char))
      else CheckLabels(Split(h, "."))
  }

  /** A label of a valid hostname. */
  predicate ValidLabel(l: string)
  {
    1 <= |l| <= 63 && l[0] != '-' && l[|l| - 1] != '-'
  }

  /** What a valid hostname is, stated as one condition on the whole name. */
  predicate ValidHostname(h: string)
  {
    && 1 <= |h| <= 253
    && (forall k :: 0 <= k < |h| ==> IsHostnameChar(h[k]))
    && (forall l :: l in Split(h, ".") ==> ValidLabel(l))
  }

  lemma {:induction false} CheckLabelsPass(labels: seq<string>)
    ensures CheckLabels(labels) == Pass <==> forall l :: l in labels ==> ValidLabel(l)
    decreases |labels|
  {
    if |labels| > 0 {
      CheckLabelsPass(labels[1..]);
      assert labels == [labels[0]] + labels[1..];
      assert ValidLabel(labels[0]) ==> CheckLabels(labels) == CheckLabels(labels[1..]);
      assert !ValidLabel(labels[0]) ==> CheckLabels(labels) != Pass;
    }
  }

  /** validateHostname accepts exactly the valid hostnames. */
  lemma ValidateHostnameCorrect(h: string)
    ensures ValidateHostname(h) == Pass <==> ValidHostname(h)
  {
    if FirstSpecialChar(h) == -1 {
      AllowedIsAscii(h);
      if 1 <= |h| <= 253 {
        CheckLabelsPass(Split(h, "."));
      }
    }
  }

  /** A name of allowed characters is ASCII, so its byte length and its
      character length agree. */
  lemma AllowedIsAscii(h: string)
    requires forall k :: 0 <= k < |h| ==> IsHostnameChar(h[k])
    ensures ByteLength(h) == |h|
  {
    assert forall k :: 0 <= k < |h| ==> h[k] as int < 0x80;
    ByteLengthAscii(h);
  }

  /** A hostname that is empty or longer than 253 bytes is rejected for its
      length, before anything else is looked at. */
  lemma HostnameLengthRejected(h: string)
    requires |h| == 0 || ByteLength(h) > 253
    ensures ValidateHostname(h) == Fail(HostnameLength) && !ValidHostname(h)
  {
    if ValidHostname(h) {
      AllowedIsAscii(h);
    }
  }

  /** Within the length bound, the first character outside [A-Za-z0-9._-]
      is reported. */
  lemma InvalidCharRejected(h: string, k: nat)
    requires ByteLength(h) <= 253 && k < |h| && !IsHostnameChar(h[k])
    ensures exists j :: 0 <= j <= k && ValidateHostname(h) == Fail(InvalidChar(Utf8FirstByte(h[j]) as char)) && !IsHostnameChar(h[j])
  {
    var j := FirstSpecialChar(h);
    assert 0 <= j <= k;
  }

  /** A dot at position i ends one label and starts the next. */
  lemma DotCut(h: string, i: nat)
    requires i < |h| && h[i] == '.'
    ensures Split(h, ".") == Split(h[..i], ".") + Split(h[i + 1..], ".")
  {
    CutAround(h, i);
    assert [h[i]] == ".";
    SplitConcat(h[..i], '.', h[i + 1..]);
  }

  /** A label is empty when the name starts or ends with a dot or holds two
      dots in a row, so such names are rejected (".", ".." and "a." among
      them). */
  lemma EmptyLabelRejected(h: string)
    requires |h| > 0
    requires h[0] == '.' || h[|h| - 1] == '.' || exists i :: 0 <= i < |h| - 1 && h[i] == '.' && h[i + 1] == '.'
    ensures "" in Split(h, ".")
    ensures ValidateHostname(h) != Pass
  {
    EmptyPiece(h);
    ValidateHostnameCorrect(h);
    assert !ValidLabel("");
  }

  lemma EmptyPiece(h: string)
    requires |h| > 0
    requires h[0] == '.' || h[|h| - 1] == '.' || exists i :: 0 <= i < |h| - 1 && h[i] == '.' && h[i + 1] == '.'
    ensures "" in Split(h, ".")
  {
    if h[0] == '.' {
      FirstPiece(h, '.');
    } else if h[|h| - 1] == '.' {
      TrailingDotPiece(h);
    } else {
      var i :| 0 <= i < |h| - 1 && h[i] == '.' && h[i + 1] == '.';
      DoubleDotPiece(h, i);
    }
  }

  /** A name ending in a dot ends with an empty piece. */
  lemma TrailingDotPiece(h: string)
    requires |h| > 0 && h[|h| - 1] == '.'
    ensures "" in Split(h, ".")
  {
    DotCut(h, |h| - 1);
    var pre := Split(h[..|h| - 1], ".");
    assert h[|h|..] == "";
    assert (pre + [""])[|pre|] == "";
  }

  /** Two dots in a row leave an empty piece between them. */
  lemma DoubleDotPiece(h: string, i: nat)
    requires i < |h| - 1 && h[i] == '.' && h[i + 1] == '.'
    ensures "" in Split(h, ".")
  {
    DotCut(h, i);
    FirstPiece(h[i + 1..], '.');
    var pre := Split(h[..i], ".");
    var post := Split(h[i + 1..], ".");
    assert (pre + post)[|pre|] == post[0] == "";
  }

  /** A minus sign at the start or end of a label is rejected: at either end
      of the name or next to a dot. */
  lemma EdgeMinusRejected(h: string)
    requires |h| > 0
    requires || h[0] == '-' || h[|h| - 1] == '-'
             || (exists i :: 0 <= i < |h| - 1 && h[i] == '.' && h[i + 1] == '-')
             || (exists i :: 0 <= i < |h| - 1 && h[i] == '-' && h[i + 1] == '.')
    ensures ValidateHostname(h) != Pass
  {
    ValidateHostnameCorrect(h);
    if h[0] == '-' {
      FirstPiece(h, '.');
      assert !ValidLabel(Split(h, ".")[0]);
    } else if h[|h| - 1] == '-' {
      LastPiece(h, '.');
      var p := Split(h, ".");
      assert !ValidLabel(p[|p| - 1]);
    } else if exists i :: 0 <= i < |h| - 1 && h[i] == '.' && h[i + 1] == '-' {
      var i :| 0 <= i < |h| - 1 && h[i] == '.' && h[i + 1] == '-';
      DotCut(h, i);
      FirstPiece(h[i + 1..], '.');
      assert !ValidLabel(Split(h[i + 1..], ".")[0]);
      assert Split(h[i + 1..], ".")[0] in Split(h, ".");
    } else {
      var i :| 0 <= i < |h| - 1 && h[i] == '-' && h[i + 1] == '.';
      DotCut(h, i + 1);
      LastPiece(h[..i + 1], '.');
      var p := Split(h[..i + 1], ".");
      assert !ValidLabel(p[|p| - 1]);
      assert p[|p| - 1] in Split(h, ".");
    }
  }

  /** A label longer than 63 characters between two dots (or the ends of the
      name) is rejected. */
  lemma LongLabelRejected(a: string, l: string, b: string)
    requires Free(l, '.') && |l| > 63
    requires a == "" || a[|a| - 1] == '.'
    requires b == "" || b[0] == '.'
    ensures ValidateHostname(a + l + b) != Pass
  {
    ValidateHostnameCorrect(a + l + b);
    LabelPiece(a, l, b);
    assert !ValidLabel(l);
  }

  lemma ConcatAssoc(x: string, y: string, z: string)
    ensures x + y + z == x + (y + z)
  {
  }

  /** A dot-free stretch between two dots (or the ends) is one of the pieces. */
  lemma LabelPiece(a: string, l: string, b: string)
    requires Free(l, '.')
    requires a == "" || a[|a| - 1] == '.'
    requires b == "" || b[0] == '.'
    ensures l in Split(a + l + b, ".")
  {
    LabelFirst(l, b);
    ConcatAssoc(a, l, b);
    if a != "" {
      PieceAfterDot(a, l + b);
    } else {
      assert a + l + b == l + b;
    }
  }

  /** The first piece after a dot is one of the pieces. */
  lemma PieceAfterDot(a: string, c: string)
    requires a != "" && a[|a| - 1] == '.'
    ensures Split(c, ".")[0] in Split(a + c, ".")
  {
    var a' := a[..|a| - 1];
    assert a + c == a' + "." + c by {
      assert a == a' + ".";
    }
    SplitConcat(a', '.', c);
    var pre := Split(a', ".");
    assert (pre + Split(c, "."))[|pre|] == Split(c, ".")[0];
  }

  /** A dot-free stretch followed by a dot (or the end) is the first piece. */
  lemma LabelFirst(l: string, b: string)
    requires Free(l, '.')
    requires b == "" || b[0] == '.'
    ensures Split(l + b, ".")[0] == l
  {
    SplitFree(l, '.');
    if b == "" {
      assert l + b == l;
    } else {
      SplitConcat(l, '.', b[1..]);
      assert l + "." + b[1..] == l + b;
    }
  }

  /** Valid labels joined by dots make a valid hostname, if the result has
      the right length and alphabet. */
  lemma JoinedLabelsValid(labels: seq<string>)
    requires |labels| > 0
    requires forall i :: 0 <= i < |labels| ==> Free(labels[i], '.') && ValidLabel(labels[i])
    requires 1 <= |Join(labels, ".")| <= 253
    requires forall k :: 0 <= k < |Join(labels, ".")| ==> IsHostnameChar(Join(labels, ".")[k])
    ensures ValidateHostname(Join(labels, ".")) == Pass
  {
    SplitJoin(labels, '.');
    ValidateHostnameCorrect(Join(labels, "."));
  }

  /** Rows of the hostname validator's test table. */
  lemma ExampleSimple()
    ensures ValidateHostname("simple") == Pass
  {
    assert Join(["simple"], ".") == "simple";
    JoinedLabelsValid(["simple"]);
  }

  lemma ExampleGoogle()
    ensures ValidateHostname("google.com") == Pass
  {
    assert Join(["google", "com"], ".") == "google.com";
    JoinedLabelsValid(["google", "com"]);
  }

  lemma ExampleInnerMinus()
    ensures ValidateHostname("test-thing.com") == Pass
  {
    assert Join(["test-thing", "com"], ".") == "test-thing.com";
    JoinedLabelsValid(["test-thing", "com"]);
  }

  lemma ExampleSubdomain()
    ensures ValidateHostname("test.test.com") == Pass
  {
    assert Join(["test", "test", "com"], ".") == "test.test.com";
    JoinedLabelsValid(["test", "test", "com"]);
  }

  lemma ExampleDots()
    ensures ValidateHostname(".") != Pass
    ensures ValidateHostname("..") != Pass
  {
    EmptyLabelRejected(".");
    EmptyLabelRejected("..");
  }

  lemma ExampleMinusEnd()
    ensures ValidateHostname("test-.com") != Pass
  {
    assert "test-.com"[4] == '-' && "test-.com"[5] == '.';
    EdgeMinusRejected("test-.com");
  }

  lemma ExampleMinusStart()
    ensures ValidateHostname("-test.com") != Pass
  {
    EdgeMinusRejected("-test.com");
  }

  lemma ExampleSpecialChar()
    ensures ValidateHostname("test!.com") == Fail(InvalidChar('!'))
  {
    InvalidCharRejected("test!.com", 4);
  }

  /** The length bound counts bytes: 200 "a" and 30 "é" are 230
      characters but 260 bytes, too many for a hostname. */
  lemma ExampleWideName()
    ensures var h := seq(200, _ => 'a') + seq(30, _ => '\U{00E9}');
      |h| <= 253 && ValidateHostname(h) == Fail(HostnameLength)
  {
    var a, e := seq(200, _ => 'a'), seq(30, _ => '\U{00E9}');
    ByteLengthConcat(a, e);
    ByteLengthRepeat('a', 200);
    ByteLengthRepeat('\U{00E9}', 30);
    HostnameLengthRejected(a + e);
  }

  /** The error names the first byte of a character beyond ASCII: "é"
      (U+00E9, bytes C3 A9) is reported as U+00C3, "Ã". */
  lemma ExampleAccentedName()
    ensures ValidateHostname("\U{00E9}.com") == Fail(InvalidChar('\U{00C3}'))
  {
    InvalidCharRejected("\U{00E9}.com", 0);
  }

  /** validateIP. */
  function ValidateIP(ip: string, parseIP: string -> bool): (r: Check)
    ensures r == Pass <==> parseIP(ip)
    ensures r != Pass ==> r == Fail(IPParse)
  {
    if parseIP(ip) then Pass else Fail(IPParse)
  }

  /** The host check at the end of validateURL. */
  function CheckHost(host: string, parseIP: string -> bool): (r: Check)
    ensures r == Pass <==> ValidHostname(host) || parseIP(host)
    ensures r != Pass ==> r == Fail(URLHost)
  {
    ValidateHostnameCorrect(host);
    if ValidateHostname(host) == Pass || ValidateIP(host, parseIP) == Pass then Pass else Fail(URLHost)
  }

  /** validateURL: the port after the first ':' of the host must parse and
      lie in 0..65536, and the host before it must be a hostname or an IP. */
  function ValidateURL(str: string, parseURI: string -> Result<string, Error>, parseIP: string -> bool): Check
  {
    match parseURI(str)
    case Failure(e) => Fail(URLParse(e))
    case Success(host) =>
      var portSplit := Split(host, ":");
      if |portSplit| > 1 then
        match ParseInt(portSplit[1])
        case None => Fail(PortParse)
        case Some(port) =>
          if port < 0 || port > 65536 then Fail(PortRange)
          else CheckHost(portSplit[0], parseIP)
      else CheckHost(host, parseIP)
  }

  /** A host written `name:rest` splits at its first colon. */
  lemma PortSplit(name: string, rest: string)
    requires Free(name, ':')
    ensures Split(name + ":" + rest, ":") == [name] + Split(rest, ":")
  {
    SplitConcat(name, ':', rest);
    SplitFree(name, ':');
  }

  /** An empty port ("host:" or "host::...") is a parse error. */
  lemma EmptyPortRejected(str: string, parseURI: string -> Result<string, Error>, parseIP: string -> bool,
                          name: string, rest: string)
    requires Free(name, ':') && (rest == "" || rest[0] == ':')
    requires parseURI(str) == Success(name + ":" + rest)
    ensures ValidateURL(str, parseURI, parseIP) == Fail(PortParse)
  {
    PortSplit(name, rest);
    if rest != "" { FirstPiece(rest, ':'); }
  }

  /** A port that parses lands in the checks on its value and on the host. */
  lemma NumericPort(str: string, parseURI: string -> Result<string, Error>, parseIP: string -> bool,
                    name: string, port: nat)
    requires Free(name, ':') && port < 0x8000_0000_0000_0000
    requires parseURI(str) == Success(name + ":" + Itoa(port))
    ensures port > 65536 ==> ValidateURL(str, parseURI, parseIP) == Fail(PortRange)
    ensures port <= 65536 ==> ValidateURL(str, parseURI, parseIP) == CheckHost(name, parseIP)
  {
    PortSplit(name, Itoa(port));
    assert Free(Itoa(port), ':') by {
      forall i | 0 <= i < |Itoa(port)| ensures Itoa(port)[i] != ':' { assert IsDigit(Itoa(port)[i]); }
    }
    SplitFree(Itoa(port), ':');
    ParseIntItoa(port);
  }

  /** An empty host is rejected, with or without a port (given that the
      IP parser rejects the empty string, as net.ParseIP does). */
  lemma EmptyHostRejected(str: string, parseURI: string -> Result<string, Error>, parseIP: string -> bool)
    requires !parseIP("")
    requires parseURI(str) == Success("") || parseURI(str) == Success(":80")
    ensures ValidateURL(str, parseURI, parseIP) == Fail(URLHost)
  {
    if parseURI(str) == Success(":80") {
      assert Itoa(80) == "80";
      assert "" + ":" + Itoa(80) == ":80";
      NumericPort(str, parseURI, parseIP, "", 80);
      assert !ValidHostname("");
    }
  }

  lemma Itoa65536()
    ensures Itoa(65536) == "65536"
  {
    assert Itoa(6) == "6";
    assert Itoa(65) == Itoa(6) + "5";
    assert Itoa(655) == Itoa(65) + "5";
    assert Itoa(6553) == Itoa(655) + "3";
    assert Itoa(65536) == Itoa(6553) + "6";
  }

  /** The source's upper port bound is 65536, so the port 65536, which TCP
      does not have, is let through. */
  lemma Port65536Accepted(str: string, parseURI: string -> Result<string, Error>, parseIP: string -> bool)
    requires parseURI(str) == Success("127.0.0.1:65536") && parseIP("127.0.0.1")
    ensures ValidateURL(str, parseURI, parseIP) == Pass
  {
    Itoa65536();
    assert "127.0.0.1" + ":" + Itoa(65536) == "127.0.0.1:65536";
    assert Free("127.0.0.1", ':');
    NumericPort(str, parseURI, parseIP, "127.0.0.1", 65536);
  }

  /** validateURL with the port range 0..65535 that TCP ports have. */
  function ValidateURLIntended(str: string, parseURI: string -> Result<string, Error>, parseIP: string -> bool): Check
  {
    match parseURI(str)
    case Failure(e) => Fail(URLParse(e))
    case Success(host) =>
      var portSplit := Split(host, ":");
      if |portSplit| > 1 then
        match ParseInt(portSplit[1])
        case None => Fail(PortParse)
        case Some(port) =>
          if port < 0 || port > 65535 then Fail(PortRange)
          else CheckHost(portSplit[0], parseIP)
      else CheckHost(host, parseIP)
  }

  /** With the intended bound every accepted URL names a real port, and the
      two validators differ only on the port 65536. */
  lemma ValidateURLIntendedPorts(str: string, parseURI: string -> Result<string, Error>, parseIP: string -> bool)
    requires parseURI(str).Success?
    ensures var parts := Split(parseURI(str).value, ":");
      ValidateURLIntended(str, parseURI, parseIP) == Pass && |parts| > 1 ==>
        ParseInt(parts[1]).Some? && 0 <= ParseInt(parts[1]).value <= 65535
    ensures var parts := Split(parseURI(str).value, ":");
      ValidateURLIntended(str, parseURI, parseIP) != ValidateURL(str, parseURI, parseIP) ==>
        |parts| > 1 && ParseInt(parts[1]) == Some(65536)
  {
  }

  /** The global entryTypeValidators map, filled by the package's init. */
  class Validators {
    var entryTypeValidators: map<EntryType, string -> Check>

    /** init: exactly the three types, each mapped to its own validator. */
    constructor Init(parseURI: string -> Result<string, Error>, parseIP: string -> bool)
      ensures entryTypeValidators.Keys == {HostnameType, IPType, URLType}
      ensures forall s :: entryTypeValidators[HostnameType](s) == ValidateHostname(s)
      ensures forall s :: entryTypeValidators[IPType](s) == ValidateIP(s, parseIP)
      ensures forall s :: entryTypeValidators[URLType](s) == ValidateURL(s, parseURI, parseIP)
    {
      entryTypeValidators := map[];
      new;
      entryTypeValidators := entryTypeValidators[HostnameType := ValidateHostname];
      entryTypeValidators := entryTypeValidators[IPType := s => ValidateIP(s, parseIP)];
      entryTypeValidators := entryTypeValidators[URLType := s => ValidateURL(s, parseURI, parseIP)];
    }
  }
}
