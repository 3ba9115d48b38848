// Which address a request is counted under (internal/middleware/clientip.go).
module ClientAddress {
  import opened Prelude

  /** net.IP as ParseIP makes it: sixteen bytes, an IPv4 address in its mapped form. */
  type Ip = bytes: seq<bv8> | |bytes| == 16 witness seq(16, _ => 0)

  /** The parsing and printing of addresses, which the standard library does. */
  datatype Notation = Notation(trim: string -> string, parse: string -> Option<Ip>, show: Ip -> string)
  {
    function Read(entry: string): Option<Ip>
    {
      parse(trim(entry))
    }

    /** An empty text is no address; a printed one reads back, also as a proxy appends it, and has no comma. */
    ghost predicate Sound()
    {
      && Read("") == None
      && (forall ip: Ip :: parse(show(ip)) == Read(show(ip)) == Read(" " + show(ip)) == Some(ip) && ',' !in show(ip))
    }
  }

  /** One block of trusted addresses. */
  type Block = Ip -> bool

  predicate Trusted(nets: seq<Block>, ip: Ip)
  {
    exists i :: 0 <= i < |nets| && nets[i](ip)
  }

  // ---- strings.Split ----

  /** Where the first comma stands, or the length of the text. */
  function Comma(s: string): (n: nat)
    ensures n <= |s| && (forall i :: 0 <= i < n ==> s[i] != ',') && (n < |s| ==> s[n] == ',')
  {
    if s == "" || s[0] == ',' then 0 else Comma(s[1..]) + 1
  }

  function Split(s: string): (parts: seq<string>)
    ensures |parts| > 0
    decreases |s|
  {
    var n := Comma(s);
    if n == |s| then [s] else [s[..n]] + Split(s[n + 1..])
  }

  lemma {:induction false} SplitJoined(p: string, q: string)
    ensures Split(p + "," + q) == Split(p) + Split(q)
    decreases |p|
  {
    hide Split, Comma;
    var n := Comma(p);
    CutJoined(p, q, n);
    SplitAt(p + "," + q);
    SplitAt(p);
    if n < |p| {
      SplitJoined(p[n + 1..], q);
      Regroup([p[..n]], Split(p[n + 1..]), Split(q));
    }
  }

  /** The joined text has its first comma where p has it, or right behind p. */
  lemma CutJoined(p: string, q: string, n: nat)
    requires n == Comma(p)
    ensures var s := p + "," + q;
      && n < |s| && Comma(s) == n && s[..n] == p[..n]
      && s[n + 1..] == (if n == |p| then q else p[n + 1..] + "," + q) && (n == |p| ==> p[..n] == p)
  {
    var s := p + "," + q;
    CommaIs(s, n);
    hide Comma;
    assert s[..n] == p[..n];
    assert n == |p| ==> s[n + 1..] == q && p[..n] == p;
    assert n < |p| ==> s[n + 1..] == p[n + 1..] + "," + q;
  }

  lemma SplitAt(s: string)
    ensures Split(s) == if Comma(s) == |s| then [s] else [s[..Comma(s)]] + Split(s[Comma(s) + 1..])
  {
    hide Comma;
  }

  lemma Regroup<T>(a: seq<T>, b: seq<T>, c: seq<T>)
    ensures a + (b + c) == (a + b) + c
  {
  }

  lemma CommaIs(s: string, n: nat)
    requires n < |s| && s[n] == ',' && forall i :: 0 <= i < n ==> s[i] != ','
    ensures Comma(s) == n
  {
  }

  lemma SplitSingle(s: string)
    requires ',' !in s
    ensures Split(s) == [s]
  {
  }

  // ---- The walk ----

  /** From the right: past trusted hops, up to the first entry that is malformed or not trusted. */
  function Walk(nets: seq<Block>, n: Notation, parts: seq<string>, peer: string): string
  {
    if parts == [] then peer
    else
      match n.Read(parts[|parts| - 1])
      case None => peer
      case Some(ip) => if Trusted(nets, ip) then Walk(nets, n, parts[..|parts| - 1], peer) else n.show(ip)
  }

  predicate TrustedPeer(nets: seq<Block>, n: Notation, peer: string)
  {
    n.parse(peer).Some? && Trusted(nets, n.parse(peer).value)
  }

  function ClientOf(nets: seq<Block>, n: Notation, peer: string, forwarded: string): string
  {
    if TrustedPeer(nets, n, peer) && forwarded != "" then Walk(nets, n, Split(forwarded), peer) else peer
  }

  /** Header.Get: the first line, or nothing. */
  function Get(lines: seq<string>): string
  {
    if lines == [] then "" else lines[0]
  }

  class TrustedProxies {
    const nets: seq<Block>
    const notation: Notation

    constructor (nets: seq<Block>, notation: Notation)
      ensures this.nets == nets && this.notation == notation
    {
      this.nets, this.notation := nets, notation;
    }

    /** The entry is an address that some block holds. */
    predicate KnownHop(entry: string)
    {
      match notation.parse(notation.trim(entry))
      case None => false
      case Some(ip) => exists i :: 0 <= i < |nets| && nets[i](ip)
    }

    method Contains(ip: Option<Ip>) returns (found: bool)
      ensures found <==> ip.Some? && exists i :: 0 <= i < |nets| && nets[i](ip.value)
    {
      if ip.None? {
        return false;
      }
      for i := 0 to |nets|
        invariant forall j :: 0 <= j < i ==> !nets[j](ip.value)
      {
        if nets[i](ip.value) {
          return true;
        }
      }
      return false;
    }

    /**
     * `lines` are the X-Forwarded-For lines of the request. A peer outside the trusted blocks is
     * the client, whatever it sends, and so is one that sends no header, or an empty one, or trusted
     * hops only. Otherwise the rightmost entry of the first line that is no trusted hop decides.
     */
    method ClientIP(peer: string, lines: seq<string>) returns (address: string)
      ensures address == ClientOf(nets, notation, peer, Get(lines))
      ensures notation.parse(peer).None? ==> address == peer
      ensures notation.parse(peer).Some? && (forall i :: 0 <= i < |nets| ==> !nets[i](notation.parse(peer).value)) ==>
        address == peer
      ensures lines == [] || lines[0] == "" ==> address == peer
      ensures lines != [] && (forall i :: 0 <= i < |Split(lines[0])| ==> KnownHop(Split(lines[0])[i])) ==>
        address == peer
      ensures notation.parse(peer).Some? && (exists i :: 0 <= i < |nets| && nets[i](notation.parse(peer).value)) ==>
        lines != [] && lines[0] != "" ==> RightmostWins(Split(lines[0]), peer, address)
    {
      var forwarded := Get(lines);
      var known := Contains(notation.parse(peer));
      if |nets| == 0 || !known || forwarded == "" {
        return peer;
      }
      address := FromRight(Split(forwarded), peer);
    }

    /** The rightmost entry that is no trusted hop is the client, unless it is malformed; then the peer is. */
    ghost predicate RightmostWins(parts: seq<string>, peer: string, address: string)
    {
      forall k :: 0 <= k < |parts| && !KnownHop(parts[k]) && (forall i :: k < i < |parts| ==> KnownHop(parts[i])) ==>
        match notation.parse(notation.trim(parts[k]))
        case None => address == peer
        case Some(ip) => address == notation.show(ip)
    }

    /** The loop over the entries. */
    method FromRight(parts: seq<string>, peer: string) returns (address: string)
      ensures address == Walk(nets, notation, parts, peer)
      ensures (forall i :: 0 <= i < |parts| ==> KnownHop(parts[i])) ==> address == peer
      ensures RightmostWins(parts, peer, address)
    {
      var i := |parts| - 1;
      assert parts[..i + 1] == parts;
      while i >= 0
        invariant -1 <= i < |parts|
        invariant Walk(nets, notation, parts, peer) == Walk(nets, notation, parts[..i + 1], peer)
        invariant forall k :: i < k < |parts| ==> KnownHop(parts[k])
      {
        assert parts[..i + 1][..i] == parts[..i];
        var ip := notation.parse(notation.trim(parts[i]));
        if ip.None? {
          break;
        }
        var trusted := Contains(ip);
        if !trusted {
          return notation.show(ip.value);
        }
        i := i - 1;
      }
      return peer;
    }
  }

  // ---- What a client can and cannot influence ----

  predicate Hop(nets: seq<Block>, n: Notation, entry: string)
  {
    n.Read(entry).Some? && Trusted(nets, n.Read(entry).value)
  }

  /** Nothing but trusted hops. */
  predicate Hops(nets: seq<Block>, n: Notation, parts: seq<string>)
  {
    forall i :: 0 <= i < |parts| ==> Hop(nets, n, parts[i])
  }

  lemma {:induction false} WalkSuffix(nets: seq<Block>, n: Notation, left: seq<string>, right: seq<string>,
                                      peer: string)
    ensures Walk(nets, n, left + right, peer)
      == if Hops(nets, n, right) then Walk(nets, n, left, peer) else Walk(nets, n, right, peer)
    decreases |right|
  {
    if right == [] {
      assert left + right == left;
    } else {
      var k := |right| - 1;
      assert (left + right)[..|left + right| - 1] == left + right[..k];
      assert Hops(nets, n, right) <==> Hops(nets, n, right[..k]) && Hop(nets, n, right[k]);
      WalkSuffix(nets, n, left, right[..k], peer);
    }
  }

  /**
   * Behind a trusted peer, what stands left of an entry that is malformed or not trusted has no
   * say; what stands left of trusted hops only decides as if they were not there.
   */
  lemma PrefixIgnored(nets: seq<Block>, n: Notation, peer: string, p: string, q: string)
    requires n.Read("") == None && TrustedPeer(nets, n, peer)
    ensures ClientOf(nets, n, peer, p + "," + q)
      == if Hops(nets, n, Split(q)) then ClientOf(nets, n, peer, p) else ClientOf(nets, n, peer, q)
  {
    SplitJoined(p, q);
    WalkSuffix(nets, n, Split(p), Split(q), peer);
    SplitSingle("");
    assert p + "," + q != "";
    assert n.Read("") == None;
    assert !Hop(nets, n, "");
    assert Walk(nets, n, [""], peer) == peer;
    assert [""][0] == "";
  }

  /** The rightmost entry that is malformed or not trusted decides. */
  lemma RightmostDecides(nets: seq<Block>, n: Notation, parts: seq<string>, k: nat, peer: string)
    requires k < |parts| && !Hop(nets, n, parts[k]) && Hops(nets, n, parts[k + 1..])
    ensures Walk(nets, n, parts, peer) == match n.Read(parts[k]) case None => peer case Some(ip) => n.show(ip)
  {
    WalkSuffix(nets, n, parts[..k + 1], parts[k + 1..], peer);
    assert parts[..k + 1] + parts[k + 1..] == parts;
  }

  /** An address the service is willing to count a request under. */
  ghost predicate PeerOrUntrusted(nets: seq<Block>, n: Notation, peer: string, address: string)
  {
    address == peer || exists ip :: !Trusted(nets, ip) && address == n.show(ip)
  }

  lemma {:induction false} WalkNeverTrusted(nets: seq<Block>, n: Notation, parts: seq<string>, peer: string)
    ensures PeerOrUntrusted(nets, n, peer, Walk(nets, n, parts, peer))
  {
    if parts != [] && Hop(nets, n, parts[|parts| - 1]) {
      WalkNeverTrusted(nets, n, parts[..|parts| - 1], peer);
    }
  }

  /** The answer is the peer itself or an address outside the trusted blocks. */
  lemma NeverATrustedHop(nets: seq<Block>, n: Notation, peer: string, forwarded: string)
    ensures PeerOrUntrusted(nets, n, peer, ClientOf(nets, n, peer, forwarded))
  {
    WalkNeverTrusted(nets, n, Split(forwarded), peer);
  }

  // ---- What proxies do to the header ----

  /** A proxy adds the address it was called from: to all lines, joined into one, or as a line of its own. */
  datatype Habit = Joins | AddsLine

  datatype Visit = Visit(caller: Ip, habit: Habit)

  function Joined(lines: seq<string>): string
    requires lines != []
  {
    if |lines| == 1 then lines[0] else Joined(lines[..|lines| - 1]) + ", " + lines[|lines| - 1]
  }

  function Written(n: Notation, lines: seq<string>, visit: Visit): seq<string>
  {
    var address := n.show(visit.caller);
    if lines == [] then [address]
    else if visit.habit.Joins? then [Joined(lines) + ", " + address]
    else lines + [address]
  }

  /** The lines behind a chain of proxies, each called from the one before it. */
  function Forwarded(n: Notation, lines: seq<string>, visits: seq<Visit>): seq<string>
  {
    if visits == [] then lines
    else Written(n, Forwarded(n, lines, visits[..|visits| - 1]), visits[|visits| - 1])
  }

  /** A chain that a client enters through trusted proxies. */
  ghost predicate Chain(nets: seq<Block>, visits: seq<Visit>)
  {
    && visits != [] && !Trusted(nets, visits[0].caller)
    && forall i :: 0 < i < |visits| ==> Trusted(nets, visits[i].caller)
  }

  predicate SomeJoins(visits: seq<Visit>)
  {
    exists i :: 0 <= i < |visits| && visits[i].habit.Joins?
  }

  /** The text behind a comma in one line: what the walk sees first. */
  lemma LastEntry(nets: seq<Block>, n: Notation, peer: string, line: string, ip: Ip)
    requires n.Sound() && TrustedPeer(nets, n, peer)
    ensures ClientOf(nets, n, peer, line + ", " + n.show(ip))
      == if Trusted(nets, ip) then ClientOf(nets, n, peer, line) else n.show(ip)
  {
    var entry := " " + n.show(ip);
    assert n.Read(entry) == Some(ip);
    SplitSingle(entry);
    PrefixIgnored(nets, n, peer, line, entry);
    assert line + ", " + n.show(ip) == line + "," + entry;
    assert [entry][0] == entry && [entry][..0] == [];
    assert Hops(nets, n, Split(entry)) <==> Hop(nets, n, Split(entry)[0]);
  }

  lemma OnlyEntry(nets: seq<Block>, n: Notation, peer: string, ip: Ip)
    requires n.Sound() && TrustedPeer(nets, n, peer) && !Trusted(nets, ip)
    ensures ClientOf(nets, n, peer, n.show(ip)) == n.show(ip)
  {
    var entry := n.show(ip);
    assert n.Read(entry) == Some(ip) && ',' !in entry;
    SplitSingle(entry);
    assert [entry][0] == entry;
    assert entry != "";
  }

  lemma JoinedMore(lines: seq<string>, address: string)
    requires lines != []
    ensures Joined(lines + [address]) == Joined(lines) + ", " + address
  {
    assert (lines + [address])[..|lines|] == lines;
  }

  /** All lines taken together lead back to the client. */
  lemma {:induction false} JoinedLeadsBack(nets: seq<Block>, n: Notation, forged: seq<string>, visits: seq<Visit>,
                                           peer: string)
    requires n.Sound() && TrustedPeer(nets, n, peer) && Chain(nets, visits)
    ensures var lines := Forwarded(n, forged, visits);
      lines != [] && ClientOf(nets, n, peer, Joined(lines)) == n.show(visits[0].caller)
    decreases |visits|
  {
    var k := |visits| - 1;
    var before, caller := Forwarded(n, forged, visits[..k]), visits[k].caller;
    if k > 0 {
      JoinedLeadsBack(nets, n, forged, visits[..k], peer);
    }
    if before == [] {
      OnlyEntry(nets, n, peer, caller);
    } else {
      LastEntry(nets, n, peer, Joined(before), caller);
    }
    hide ClientOf, Notation.Sound, Joined;
    WrittenJoined(n, before, visits[k]);
  }

  /** Either way the address comes last. */
  lemma WrittenJoined(n: Notation, lines: seq<string>, visit: Visit)
    ensures var written := Written(n, lines, visit);
      && written != []
      && Joined(written) == if lines == [] then n.show(visit.caller) else Joined(lines) + ", " + n.show(visit.caller)
  {
    if lines != [] {
      JoinedMore(lines, n.show(visit.caller));
    }
  }

  /** So does the first line once a proxy has joined them, or if the client sent none; until then it is the client's. */
  lemma {:induction false} FirstLine(nets: seq<Block>, n: Notation, forged: seq<string>, visits: seq<Visit>,
                                     peer: string)
    requires n.Sound() && TrustedPeer(nets, n, peer) && Chain(nets, visits)
    ensures var line := Get(Forwarded(n, forged, visits));
      if forged == [] || SomeJoins(visits) then ClientOf(nets, n, peer, line) == n.show(visits[0].caller)
      else line == forged[0]
    decreases |visits|
  {
    var k := |visits| - 1;
    var front := visits[..k];
    JoinsWhere(visits);
    JoinedLeadsBack(nets, n, forged, visits, peer);
    hide ClientOf, SomeJoins, Notation.Sound;
    if k > 0 {
      JoinedLeadsBack(nets, n, forged, front, peer);
      FirstLine(nets, n, forged, front, peer);
    }
  }

  lemma JoinsWhere(visits: seq<Visit>)
    requires visits != []
    ensures SomeJoins(visits) <==> SomeJoins(visits[..|visits| - 1]) || visits[|visits| - 1].habit.Joins?
  {
    var front := visits[..|visits| - 1];
    if i :| 0 <= i < |visits| && visits[i].habit.Joins? {
      assert i < |front| ==> front[i].habit.Joins?;
    }
    if i :| 0 <= i < |front| && front[i].habit.Joins? {
      assert visits[i].habit.Joins?;
    }
  }

  /**
   * A client that enters through trusted proxies is counted under its own address whatever header
   * it sends, if and only if some proxy on the way joins the lines. If none does, the service reads
   * the client's own first line.
   */
  lemma ForgedHeaderIgnoredExactly(nets: seq<Block>, n: Notation, visits: seq<Visit>, peer: string)
    requires n.Sound() && TrustedPeer(nets, n, peer) && Chain(nets, visits)
    ensures SomeJoins(visits) <==>
      forall forged :: ClientOf(nets, n, peer, Get(Forwarded(n, forged, visits))) == n.show(visits[0].caller)
  {
    if SomeJoins(visits) {
      forall forged ensures ClientOf(nets, n, peer, Get(Forwarded(n, forged, visits))) == n.show(visits[0].caller) {
        FirstLine(nets, n, forged, visits, peer);
      }
    } else {
      var forged := [""];
      FirstLine(nets, n, forged, visits, peer);
      assert Get(Forwarded(n, forged, visits)) == "";
      assert n.parse(n.show(visits[0].caller)) == Some(visits[0].caller);
      assert ClientOf(nets, n, peer, Get(Forwarded(n, forged, visits))) == peer;
    }
  }

  /** A client that sends no such header is counted under its own address in any case. */
  lemma PlainClientCounted(nets: seq<Block>, n: Notation, visits: seq<Visit>, peer: string)
    requires n.Sound() && TrustedPeer(nets, n, peer) && Chain(nets, visits)
    ensures ClientOf(nets, n, peer, Get(Forwarded(n, [], visits))) == n.show(visits[0].caller)
  {
    FirstLine(nets, n, [], visits, peer);
  }
}
