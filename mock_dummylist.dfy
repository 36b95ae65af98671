/** sources/mock/dummylist.go: a list of made-up data for tests: one
    hundred IP addresses and a fixed list of hostnames. */
module MockDummyList {
  import opened Base
  import opened GoStrings
  import opened ListEntry
  import opened Streams
  import opened Feeds

  /** The four bytes `binary.LittleEndian.PutUint32` writes for `i`. */
  function LittleEndian(i: nat): (bs: seq<nat>)
    requires i < 0x1_0000_0000
    ensures |bs| == 4 && forall k :: 0 <= k < 4 ==> bs[k] < 256
    ensures bs[0] + 256 * bs[1] + 65536 * bs[2] + 16777216 * bs[3] == i
  {
    var q1 := i / 256;
    var q2 := q1 / 256;
    var q3 := q2 / 256;
    [i % 256, q1 % 256, q2 % 256, q3]
  }

  /** `net.IPv4(a, b, c, d).String()`: the four bytes in decimal, joined
      by dots. */
  function DottedQuad(bs: seq<nat>): string
    requires |bs| == 4
  {
    Itoa(bs[0]) + "." + Itoa(bs[1]) + "." + Itoa(bs[2]) + "." + Itoa(bs[3])
  }

  /** The address of the `i`-th IP entry. */
  function DummyIP(i: nat): string
    requires i < 0x1_0000_0000
  {
    DottedQuad(LittleEndian(i))
  }

  /** Below 256 only the first byte is set: the address is "i.0.0.0". */
  lemma DummyIPSmall(i: nat)
    requires i < 256
    ensures DummyIP(i) == Itoa(i) + ".0.0.0"
  {
    assert LittleEndian(i) == [i, 0, 0, 0];
  }

  /** The hundred addresses are pairwise different. */
  lemma DummyIPInjective(i: nat, j: nat)
    requires i < 100 && j < 100 && DummyIP(i) == DummyIP(j)
    ensures i == j
  {
    DummyIPSmall(i);
    DummyIPSmall(j);
    var a, b := Itoa(i) + ".0.0.0", Itoa(j) + ".0.0.0";
    assert |Itoa(i)| == |Itoa(j)| by { assert |a| == |b|; }
    assert Itoa(i) == a[..|Itoa(i)|] == b[..|Itoa(j)|] == Itoa(j);
    ItoaInjective(i, j);
  }

  /** The IP entries of a fetch. */
  function IPEntries(source: string): (r: seq<BlacklistedEntry>)
    ensures |r| == 100
  {
    seq(100, i requires 0 <= i < 100 => NewBlacklistedEntry(DummyIP(i), source))
  }

  /** Exactly one IP entry is "50.0.0.0", the 51st. */
  lemma {:induction false} OneFifty(source: string)
    ensures IPEntries(source)[50].index == "50.0.0.0"
    ensures forall k :: 0 <= k < 100 && IPEntries(source)[k].index == "50.0.0.0" ==> k == 50
  {
    DummyIPSmall(50);
    assert Itoa(50) == "50";
    forall k | 0 <= k < 100 && IPEntries(source)[k].index == "50.0.0.0" ensures k == 50 {
      DummyIPInjective(k, 50);
    }
  }

  /** The lines of the `hostnames` constant, in order, in groups of ten
      (facts about each group are proved on their own). */
  const HostnameLines: seq<string> := Group0 + Group1 + Group2 + Group3 + Group4 + Group5 + Group6 + Group7 + Group8

  const Group0: seq<string> := ["163.com", "1688.com", "accuweather.com", "alexa.com", "angelfire.com", "blog.com", "bloomberg.com", "booking.com", "boston.com", "cdc.gov"]
  const Group1: seq<string> := ["cnbc.com", "com.com", "craigslist.org", "creativecommons.org", "dagondesign.com", "dailymail.co.uk", "dedecms.com", "delicious.com", "deliciousdays.com", "dell.com"]
  const Group2: seq<string> := ["diigo.com", "disqus.com", "domainmarket.com", "ebay.co.uk", "ed.gov", "eventbrite.com", "fastcompany.com", "fc2.com", "feedburner.com", "geocities.jp"]
  const Group3: seq<string> := ["github.io", "google.cn", "google.it", "goo.ne.jp", "hexun.com", "home.pl", "hostgator.com", "hp.com", "huffingtonpost.com", "icio.us"]
  const Group4: seq<string> := ["ifeng.com", "ihg.com", "infoseek.co.jp", "irs.gov", "jigsy.com", "live.com", "livejournal.com", "mapy.cz", "marketwatch.com", "mayoclinic.com"]
  const Group5: seq<string> := ["mit.edu", "mozilla.org", "mtv.com", "narod.ru", "nationalgeographic.com", "netvibes.com", "newyorker.com", "noaa.gov", "nydailynews.com", "nyu.edu"]
  const Group6: seq<string> := ["oakley.com", "ovh.net", "plala.or.jp", "prweb.com", "salon.com", "sfgate.com", "springer.com", "stanford.edu", "state.tx.us", "taobao.com"]
  const Group7: seq<string> := ["technorati.com", "tinypic.com", "topsy.com", "typepad.com", "ucla.edu", "umn.edu", "ustream.tv", "va.gov", "vistaprint.com", "vkontakte.ru"]
  const Group8: seq<string> := ["weibo.com", "xing.com", "xrea.com", "yahoo.co.jp", "youtu.be"]

  /** None of the strings contains a newline, and none is empty. */
  predicate Lines(xs: seq<string>)
  {
    forall k :: 0 <= k < |xs| ==> '\n' !in xs[k] && xs[k] != ""
  }

  lemma LinesConcat(xs: seq<string>, ys: seq<string>)
    requires Lines(xs) && Lines(ys)
    ensures Lines(xs + ys)
  {
    forall k | 0 <= k < |xs + ys| ensures '\n' !in (xs + ys)[k] && (xs + ys)[k] != "" {
      if k >= |xs| { assert (xs + ys)[k] == ys[k - |xs|]; }
    }
  }

  lemma Group0Lines() ensures Lines(Group0) {}
  lemma Group1Lines() ensures Lines(Group1) {}
  lemma Group2Lines() ensures Lines(Group2) {}
  lemma Group3Lines() ensures Lines(Group3) {}
  lemma Group4Lines() ensures Lines(Group4) {}
  lemma Group5Lines() ensures Lines(Group5) {}
  lemma Group6Lines() ensures Lines(Group6) {}
  lemma Group7Lines() ensures Lines(Group7) {}
  lemma Group8Lines() ensures Lines(Group8) {}

  lemma HostnameLinesLines()
    ensures Lines(HostnameLines)
  {
    Group0Lines();
    Group1Lines();
    Group2Lines();
    Group3Lines();
    Group4Lines();
    Group5Lines();
    Group6Lines();
    Group7Lines();
    Group8Lines();
    LinesConcat(Group0, Group1);
    LinesConcat(Group0 + Group1, Group2);
    LinesConcat(Group0 + Group1 + Group2, Group3);
    LinesConcat(Group0 + Group1 + Group2 + Group3, Group4);
    LinesConcat(Group0 + Group1 + Group2 + Group3 + Group4, Group5);
    LinesConcat(Group0 + Group1 + Group2 + Group3 + Group4 + Group5, Group6);
    LinesConcat(Group0 + Group1 + Group2 + Group3 + Group4 + Group5 + Group6, Group7);
    LinesConcat(Group0 + Group1 + Group2 + Group3 + Group4 + Group5 + Group6 + Group7, Group8);
  }


  /** The `hostnames` constant: its lines joined by newlines, without a
      final newline. */
  const Hostnames: string := Join(HostnameLines, "\n")

  /** Splitting the constant on newlines gives back its 85 lines, none of
      them empty, "booking.com" the eighth. */
  lemma HostnamesSplit()
    ensures Split(Hostnames, "\n") == HostnameLines
    ensures |HostnameLines| == 85 && HostnameLines[7] == "booking.com"
    ensures forall k :: 0 <= k < |HostnameLines| ==> HostnameLines[k] != ""
  {
    HostnameLinesLines();
    assert HostnameLines[7] == Group0[7];
    SplitJoin(HostnameLines, '\n');
  }

  /** The hostname entries of a fetch. */
  function HostnameEntries(lines: seq<string>, source: string): (r: seq<BlacklistedEntry>)
    ensures |r| == |lines| && forall k :: 0 <= k < |lines| ==> r[k] == NewBlacklistedEntry(lines[k], source)
  {
    seq(|lines|, k requires 0 <= k < |lines| => NewBlacklistedEntry(lines[k], source))
  }

  /** The second loop of `FetchData`: one entry per line, in order. */
  method SendHostnames(ch: Chan<BlacklistedEntry>, lines: seq<string>, source: string)
    requires !ch.closed
    modifies ch
    ensures !ch.closed && ch.items == old(ch.items) + HostnameEntries(lines, source)
  {
    for k := 0 to |lines|
      invariant !ch.closed && ch.items == old(ch.items) + HostnameEntries(lines[..k], source)
    {
      ch.Send(NewBlacklistedEntry(lines[k], source));
      assert HostnameEntries(lines[..k + 1], source) == HostnameEntries(lines[..k], source) + [NewBlacklistedEntry(lines[k], source)];
    }
    assert lines[..|lines|] == lines;
  }

  /** The first loop of `FetchData`: the hundred addresses, in order. It
      touches the IP channel only. */
  method SendIPs(ch: Chan<BlacklistedEntry>, source: string)
    requires !ch.closed
    modifies ch
    ensures !ch.closed && ch.items == old(ch.items) + IPEntries(source)
  {
    var i := 0;
    while i < 100
      invariant 0 <= i <= 100 && !ch.closed
      invariant ch.items == old(ch.items) + IPEntries(source)[..i]
    {
      var bs := LittleEndian(i);
      var ipAddr := DottedQuad(bs);
      ch.Send(NewBlacklistedEntry(ipAddr, source));
      assert IPEntries(source)[..i + 1] == IPEntries(source)[..i] + [IPEntries(source)[i]];
      i := i + 1;
    }
  }

  /** `DummyList`. */
  class DummyList {
    var meta: Metadata

    /** `NewDummyList()`. */
    constructor ()
      ensures meta == Metadata([IPType, HostnameType], "Dummy", 0, 0)
    {
      meta := Metadata([IPType, HostnameType], "Dummy", 0, 0);
    }

    function GetMetadata(): Metadata
      reads this
    {
      meta
    }

    /** `SetMetadata`: a later `GetMetadata` returns the value set. */
    method SetMetadata(m: Metadata)
      modifies this
      ensures GetMetadata() == m
    {
      meta := m;
    }

    /** `FetchData`: the hundred addresses, then the IP channel is closed,
        then the hostnames, then the hostname channel is closed; nothing is
        reported. */
    method FetchData(entryMap: EntryMap, errorsOut: Chan<Error>)
      requires Ready(entryMap, [IPType, HostnameType])
      modifies entryMap[IPType], entryMap[HostnameType]
      ensures entryMap[IPType].closed && entryMap[IPType].items == old(entryMap[IPType].items) + IPEntries(meta.name)
      ensures entryMap[HostnameType].closed
      ensures entryMap[HostnameType].items == old(entryMap[HostnameType].items) + HostnameEntries(HostnameLines, meta.name)
    {
      var ipCh, hostCh := entryMap[IPType], entryMap[HostnameType];
      SendIPs(ipCh, meta.name);
      ipCh.Close();
      HostnamesSplit();
      SendHostnames(hostCh, Split(Hostnames, "\n"), meta.name);
      hostCh.Close();
    }
  }
}
