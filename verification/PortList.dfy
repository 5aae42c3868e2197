/**
  Port lists as text, and the hosts a port sweep covers.
*/
module PortList {
  import opened Common
  import opened Texts

  predicate Digit(c: char) {
    '0' <= c <= '9'
  }

  function DigitValue(c: char): nat
    requires Digit(c)
  {
    c as int - '0' as int
  }

  function Itoa(n: int): (s: string)
    ensures s != ""
    decreases if n < 0 then 1 else 0, n
  {
    if n < 0 then "-" + Itoa(-n)
    else if n < 10 then ['0' + n as char]
    else Itoa(n / 10) + ['0' + (n % 10) as char]
  }

  function Value(s: string): (r: Option<int>)
    ensures r.Some? ==> r.value >= 0
  {
    if s == "" then Some(0)
    else if !Digit(s[|s| - 1]) then None
    else
      var before := Value(s[..|s| - 1]);
      if before.None? then None else Some(10 * before.value + DigitValue(s[|s| - 1]))
  }

  // A sign, if any, and at least one digit.
  function Atoi(s: string): Option<int> {
    if s == "" then None
    else if s[0] == '-' || s[0] == '+' then
      if |s| == 1 then None
      else match Value(s[1..])
        case None => None
        case Some(v) => Some(if s[0] == '-' then -v else v)
    else match Value(s)
      case None => None
      case Some(v) => Some(v)
  }

  function TrimLeft(s: string, space: char -> bool): string {
    if s == "" || !space(s[0]) then s else TrimLeft(s[1..], space)
  }

  function TrimRight(s: string, space: char -> bool): string {
    if s == "" || !space(s[|s| - 1]) then s else TrimRight(s[..|s| - 1], space)
  }

  function Trim(s: string, space: char -> bool): string {
    var t := TrimLeft(s, space);
    if t == "" || !space(t[|t| - 1]) then t else TrimRight(t, space)
  }

  predicate Port(n: int) {
    1 <= n <= 65535
  }

  // The port one entry names, if any.
  function PortOf(space: char -> bool, part: string): Option<int> {
    match Atoi(Trim(part, space))
    case None => None
    case Some(n) => if Port(n) then Some(n) else None
  }

  // Each port once, where it is first named.
  function PortsOf(space: char -> bool, parts: seq<string>): seq<int> {
    if parts == [] then []
    else
      var before := PortsOf(space, parts[..|parts| - 1]);
      match PortOf(space, parts[|parts| - 1])
      case None => before
      case Some(n) => if n in before then before else before + [n]
  }

  function Parse(space: char -> bool, csv: string): seq<int> {
    if Trim(csv, space) == "" then [] else PortsOf(space, Split(csv, ','))
  }

  function Format(ports: seq<int>): string {
    Join(Map(ports, Itoa), ',')
  }

  method ParsePort(space: char -> bool, entry: string) returns (n: Option<int>)
    ensures n == PortOf(space, entry)
  {
    var part := Trim(entry, space);
    if part == "" {
      return None;
    }
    n := Atoi(part);
    if n.Some? && (n.value < 1 || n.value > 65535) {
      n := None;
    }
  }

  lemma PortsOneMore(space: char -> bool, parts: seq<string>, i: nat)
    requires i < |parts|
    ensures var before, n := PortsOf(space, parts[..i]), PortOf(space, parts[i]);
      PortsOf(space, parts[..i + 1]) == if n.None? || n.value in before then before else before + [n.value]
  {
    assert parts[..i + 1][..i] == parts[..i];
  }

  method ParsePortList(space: char -> bool, csv: string) returns (out: seq<int>)
    ensures out == Parse(space, csv)
  {
    if Trim(csv, space) == "" {
      return [];
    }
    var parts := Split(csv, ',');
    var seen: set<int> := {};
    out := [];
    for i := 0 to |parts|
      invariant out == PortsOf(space, parts[..i])
      invariant forall n :: n in seen <==> n in out
    {
      PortsOneMore(space, parts, i);
      var n := ParsePort(space, parts[i]);
      if n.Some? && n.value !in seen {
        seen, out := seen + {n.value}, out + [n.value];
      }
    }
    assert parts[..|parts|] == parts;
  }

  method Print(ports: seq<int>, parts: array<string>)
    requires parts.Length == |ports|
    modifies parts
    ensures forall k :: 0 <= k < |ports| ==> parts[k] == Itoa(ports[k])
  {
    for i := 0 to |ports|
      invariant forall k :: 0 <= k < i ==> parts[k] == Itoa(ports[k])
    {
      parts[i] := Itoa(ports[i]);
    }
  }

  lemma PrintedIs(ports: seq<int>, parts: seq<string>)
    requires |parts| == |ports| && forall k :: 0 <= k < |ports| ==> parts[k] == Itoa(ports[k])
    ensures parts == Map(ports, Itoa)
  {
  }

  method FormatPortList(ports: seq<int>) returns (s: string)
    ensures s == Format(ports)
  {
    var parts := new string[|ports|](_ => "");
    Print(ports, parts);
    PrintedIs(ports, parts[..]);
    s := Join(parts[..], ',');
  }

  // ------------------------------------------------- printing and parsing

  lemma {:induction false} ItoaIsDigits(n: nat)
    ensures Value(Itoa(n)) == Some(n) && forall i :: 0 <= i < |Itoa(n)| ==> Digit(Itoa(n)[i])
  {
    if n >= 10 {
      ItoaIsDigits(n / 10);
      assert Itoa(n)[..|Itoa(n)| - 1] == Itoa(n / 10);
    } else {
      assert Itoa(n)[..0] == "";
    }
  }

  lemma AtoiOfItoa(n: nat)
    ensures Atoi(Itoa(n)) == Some(n)
  {
    ItoaIsDigits(n);
  }

  lemma {:induction false} TrimKeeps(s: string, space: char -> bool)
    requires forall i :: 0 <= i < |s| ==> !space(s[i])
    ensures Trim(s, space) == s
  {
  }

  lemma PortOfPrinted(space: char -> bool, n: int)
    requires Port(n) && forall c :: Digit(c) ==> !space(c)
    ensures PortOf(space, Itoa(n)) == Some(n) && ',' !in Itoa(n) && Trim(Itoa(n), space) == Itoa(n)
  {
    ItoaIsDigits(n);
    AtoiOfItoa(n);
    TrimKeeps(Itoa(n), space);
  }

  lemma PortsOfSnoc(space: char -> bool, parts: seq<string>, part: string)
    ensures PortsOf(space, parts + [part]) ==
      match PortOf(space, part)
      case None => PortsOf(space, parts)
      case Some(n) => if n in PortsOf(space, parts) then PortsOf(space, parts) else PortsOf(space, parts) + [n]
  {
    assert (parts + [part])[..|parts|] == parts;
  }

  lemma LastIsNew(init: seq<int>, last: int)
    requires Distinct(init + [last])
    ensures last !in init && Distinct(init)
  {
    var all := init + [last];
    forall i | 0 <= i < |init| ensures init[i] != last { assert all[i] != all[|init|]; }
    assert forall i :: 0 <= i < |init| ==> all[i] == init[i];
  }

  lemma {:induction false} PortsOfPrinted(space: char -> bool, ports: seq<int>)
    requires (forall n :: n in ports ==> Port(n)) && Distinct(ports) && forall c :: Digit(c) ==> !space(c)
    ensures PortsOf(space, Map(ports, Itoa)) == ports
  {
    if ports != [] {
      var init, last := ports[..|ports| - 1], ports[|ports| - 1];
      assert ports == init + [last];
      assert last !in init by { LastIsNew(init, last); }
      PortsOfPrinted(space, init);
      PortOfPrinted(space, last);
      PortsOfSnoc(space, Map(init, Itoa), Itoa(last));
      assert Map(ports, Itoa) == Map(init, Itoa) + [Itoa(last)];
    }
  }

  lemma {:induction false} LeftStops(s: string, space: char -> bool, i: nat)
    requires i < |s| && !space(s[i])
    ensures TrimLeft(s, space) != "" && !space(TrimLeft(s, space)[0])
  {
    if space(s[0]) { LeftStops(s[1..], space, i - 1); }
  }

  lemma {:induction false} RightStops(s: string, space: char -> bool)
    requires s != "" && !space(s[0])
    ensures TrimRight(s, space) != ""
  {
    if space(s[|s| - 1]) { RightStops(s[..|s| - 1], space); }
  }

  lemma {:induction false} TrimIsInside(s: string, space: char -> bool, i: nat)
    requires i < |s| && !space(s[i])
    ensures Trim(s, space) != ""
  {
    LeftStops(s, space, i);
    var t := TrimLeft(s, space);
    RightStops(t, space);
  }

  lemma SplitOfPrinted(space: char -> bool, ports: seq<int>)
    requires ports != [] && (forall n :: n in ports ==> Port(n)) && forall c :: Digit(c) ==> !space(c)
    ensures Split(Format(ports), ',') == Map(ports, Itoa)
  {
    var parts := Map(ports, Itoa);
    forall i | 0 <= i < |parts| ensures ',' !in parts[i] {
      PortOfPrinted(space, ports[i]);
    }
    SplitOfJoin(parts, ',');
  }

  lemma FormatIsNotBlank(space: char -> bool, ports: seq<int>)
    requires ports != [] && ports[0] >= 0 && forall c :: Digit(c) ==> !space(c)
    ensures Trim(Format(ports), space) != ""
  {
    ItoaIsDigits(ports[0]);
    var first := Itoa(ports[0]);
    assert Map(ports, Itoa)[0] == first;
    assert Format(ports)[0] == first[0];
    TrimIsInside(Format(ports), space, 0);
  }

  // A printed list of distinct ports parses to itself.
  lemma ParseOfFormat(space: char -> bool, ports: seq<int>)
    requires (forall n :: n in ports ==> Port(n)) && Distinct(ports) && forall c :: Digit(c) ==> !space(c)
    ensures Parse(space, Format(ports)) == ports
  {
    if ports == [] {
      assert Trim("", space) == "";
    } else {
      SplitOfPrinted(space, ports);
      assert ports[0] in ports;
      PortsOfPrinted(space, ports);
      FormatIsNotBlank(space, ports);
    }
  }

  // Some entry names the port.
  predicate NamesPort(space: char -> bool, parts: seq<string>, n: int) {
    exists i :: 0 <= i < |parts| && PortOf(space, parts[i]) == Some(n)
  }

  lemma NamesPortSnoc(space: char -> bool, parts: seq<string>, n: int)
    requires parts != []
    ensures NamesPort(space, parts, n) <==>
      NamesPort(space, parts[..|parts| - 1], n) || PortOf(space, parts[|parts| - 1]) == Some(n)
  {
    var init := parts[..|parts| - 1];
    if i :| 0 <= i < |parts| && PortOf(space, parts[i]) == Some(n) {
      assert i < |init| ==> init[i] == parts[i];
    }
    if i :| 0 <= i < |init| && PortOf(space, init[i]) == Some(n) {
      assert parts[i] == init[i];
    }
  }

  // What is parsed is distinct and in range, and exactly what some entry names.
  lemma {:induction false} ParsedPorts(space: char -> bool, parts: seq<string>)
    ensures Distinct(PortsOf(space, parts))
    ensures forall n :: n in PortsOf(space, parts) <==> NamesPort(space, parts, n)
    ensures forall n :: n in PortsOf(space, parts) ==> Port(n)
  {
    if parts != [] {
      var before, last := PortsOf(space, parts[..|parts| - 1]), PortOf(space, parts[|parts| - 1]);
      ParsedPorts(space, parts[..|parts| - 1]);
      if last.Some? && last.value !in before { DistinctSnoc(before, last.value); }
      forall n ensures n in PortsOf(space, parts) <==> NamesPort(space, parts, n) {
        NamesPortSnoc(space, parts, n);
        assert n in PortsOf(space, parts) <==> n in before || last == Some(n);
      }
    }
  }

  // ------------------------------------------------- what an entry has to be

  predicate AllDigits(s: string) {
    forall i :: 0 <= i < |s| ==> '0' <= s[i] <= '9'
  }

  lemma {:induction false} ValueOfDigits(s: string)
    ensures Value(s).Some? <==> AllDigits(s)
  {
    if s != "" {
      var init, last := s[..|s| - 1], s[|s| - 1];
      assert s == init + [last];
      ValueOfDigits(init);
      assert AllDigits(init) <==> forall i :: 0 <= i < |init| ==> '0' <= s[i] <= '9';
    }
  }

  // Some digits, and what they stand for.
  predicate Numeral(s: string, n: int) {
    s != "" && AllDigits(s) && Value(s) == Some(n)
  }

  // A number is read off digits with at most one sign before them, and off
  // nothing else.
  lemma AtoiIff(s: string, n: int)
    ensures Atoi(s) == Some(n) <==>
      Numeral(s, n) || (s != "" && ((s[0] == '+' && Numeral(s[1..], n)) || (s[0] == '-' && Numeral(s[1..], -n))))
  {
    ValueOfDigits(s);
    if s != "" { ValueOfDigits(s[1..]); }
  }

  predicate Blank(s: string, space: char -> bool) {
    forall i :: 0 <= i < |s| ==> space(s[i])
  }

  // What is left of a text between the blanks around it.
  ghost predicate Trimmed(s: string, space: char -> bool, t: string) {
    && (exists i, j :: 0 <= i <= j <= |s| && t == s[i..j] && Blank(s[..i], space) && Blank(s[j..], space))
    && (t != "" ==> !space(t[0]) && !space(t[|t| - 1]))
  }

  lemma {:induction false} TrimLeftLeaves(s: string, space: char -> bool) returns (i: nat)
    ensures i <= |s| && TrimLeft(s, space) == s[i..] && Blank(s[..i], space) && (i < |s| ==> !space(s[i]))
  {
    i := 0;
    if s != "" && space(s[0]) {
      i := TrimLeftLeaves(s[1..], space);
      assert s[..i + 1] == [s[0]] + s[1..][..i];
      i := i + 1;
    }
  }

  lemma {:induction false} TrimRightLeaves(s: string, space: char -> bool) returns (j: nat)
    ensures j <= |s| && TrimRight(s, space) == s[..j] && Blank(s[j..], space) && (j > 0 ==> !space(s[j - 1]))
  {
    j := |s|;
    if s != "" && space(s[|s| - 1]) {
      var init := s[..|s| - 1];
      j := TrimRightLeaves(init, space);
      assert s[j..] == init[j..] + [s[|s| - 1]] && init[..j] == s[..j];
    }
  }

  lemma TrimLeavesTheMiddle(s: string, space: char -> bool)
    ensures Trimmed(s, space, Trim(s, space))
  {
    var i := TrimLeftLeaves(s, space);
    var t := s[i..];
    var j := TrimRightLeaves(t, space);
    assert s[i..i + j] == t[..j] && s[i + j..] == t[j..];
    assert t != "" ==> t[0] == s[i];
    if t == "" || !space(t[|t| - 1]) {
      assert t[|t|..] == "" && s[i..|s|] == t && s[|s|..] == "";
    }
  }

  lemma PortIff(space: char -> bool, entry: string, n: int)
    ensures PortOf(space, entry) == Some(n) <==> Atoi(Trim(entry, space)) == Some(n) && 1 <= n <= 65535
  {
  }

  lemma {:induction false} PiecesAreInside(s: string, sep: char, space: char -> bool)
    requires Blank(s, space)
    ensures forall piece :: piece in Split(s, sep) ==> Blank(piece, space)
  {
    if s != "" {
      var init, c := s[..|s| - 1], s[|s| - 1];
      assert s == init + [c];
      PiecesAreInside(init, sep, space);
      SplitExtends(init, sep, c);
      forall piece | piece in Split(s, sep) ensures Blank(piece, space) {
        var pieces := Split(init, sep);
        assert pieces[|pieces| - 1] in pieces;
        assert piece in pieces || piece == "" || piece == pieces[|pieces| - 1] + [c];
      }
    }
  }

  lemma BlankNamesNothing(space: char -> bool, entry: string)
    requires Blank(entry, space)
    ensures PortOf(space, entry) == None
  {
    TrimLeavesTheMiddle(entry, space);
  }

  lemma BlankIsTrimmedAway(s: string, space: char -> bool)
    requires Trim(s, space) == ""
    ensures Blank(s, space)
  {
    TrimLeavesTheMiddle(s, space);
    var i, j :| 0 <= i <= j <= |s| && "" == s[i..j] && Blank(s[..i], space) && Blank(s[j..], space);
    assert forall k :: 0 <= k < |s| ==> if k < i then s[k] == s[..i][k] else s[k] == s[j..][k - j];
  }

  // The ports of a list are those its entries between commas read as, blanks
  // around them aside, when they are in range.
  lemma ParseIsExact(space: char -> bool, csv: string, n: int)
    ensures n in Parse(space, csv) <==>
      1 <= n <= 65535 && exists entry :: entry in Split(csv, ',') && Atoi(Trim(entry, space)) == Some(n)
  {
    var parts := Split(csv, ',');
    ParsedPorts(space, parts);
    if Trim(csv, space) == "" {
      BlankIsTrimmedAway(csv, space);
      PiecesAreInside(csv, ',', space);
      forall entry | entry in parts && Atoi(Trim(entry, space)) == Some(n) ensures !(1 <= n <= 65535) {
        BlankNamesNothing(space, entry);
      }
    } else {
      if i :| 0 <= i < |parts| && PortOf(space, parts[i]) == Some(n) {
        assert parts[i] in parts;
      }
      forall entry | entry in parts && PortOf(space, entry) == Some(n) ensures NamesPort(space, parts, n) {
        var i :| 0 <= i < |parts| && parts[i] == entry;
      }
    }
  }

  // Printing what was parsed and parsing it again changes nothing.
  lemma ParsePrintParse(space: char -> bool, csv: string)
    requires forall c :: Digit(c) ==> !space(c)
    ensures Parse(space, Format(Parse(space, csv))) == Parse(space, csv)
  {
    ParsedPorts(space, Split(csv, ','));
    ParseOfFormat(space, Parse(space, csv));
  }

  // ------------------------------------------------- the hosts of a sweep

  // The distinct hosts among the targets, where each is first named.
  function Hosts(split: string -> (string, string), targets: seq<string>): seq<string> {
    if targets == [] then []
    else
      var before := Hosts(split, targets[..|targets| - 1]);
      var host := split(targets[|targets| - 1]).0;
      if host == "" || host in before then before else before + [host]
  }

  function Endpoints(split: string -> (string, string), targets: seq<string>): set<string> {
    set t | t in targets && split(t).0 != "" && split(t).1 != "" :: split(t).0 + ":" + split(t).1
  }

  // The first hosts up to the cap, the endpoints named with a port, and how many
  // distinct hosts the cap left out.
  method CollectSweepHosts(split: string -> (string, string), targets: seq<string>, cap: nat)
      returns (hosts: seq<string>, existing: set<string>, truncated: nat)
    ensures var all := Hosts(split, targets);
      hosts == all[..if |all| <= cap then |all| else cap] && |hosts| + truncated == |all|
    ensures existing == Endpoints(split, targets)
    ensures forall e :: e in existing <==>
      exists t :: t in targets && split(t).0 != "" && split(t).1 != "" && e == split(t).0 + ":" + split(t).1
  {
    hosts, existing, truncated := [], {}, 0;
    var seen: set<string> := {};
    for i := 0 to |targets|
      invariant var all := Hosts(split, targets[..i]);
        && hosts == all[..if |all| <= cap then |all| else cap] && |hosts| + truncated == |all|
        && forall h :: h in seen <==> h in all
      invariant existing == Endpoints(split, targets[..i])
    {
      assert targets[..i + 1][..i] == targets[..i];
      ghost var all := Hosts(split, targets[..i]);
      var (host, port) := split(targets[i]);
      assert forall t :: t in targets[..i + 1] <==> t in targets[..i] || t == targets[i];
      if host == "" {
        continue;
      }
      if port != "" {
        existing := existing + {host + ":" + port};
      }
      if host in seen {
        continue;
      }
      seen := seen + {host};
      if |hosts| >= cap {
        truncated := truncated + 1;
        continue;
      }
      hosts := hosts + [host];
    }
    assert targets[..|targets|] == targets;
  }

  lemma {:induction false} HostsAreDistinct(split: string -> (string, string), targets: seq<string>)
    ensures Distinct(Hosts(split, targets))
    ensures forall h :: h in Hosts(split, targets) <==> h != "" && exists t :: t in targets && split(t).0 == h
  {
    if targets != [] {
      var init, last := targets[..|targets| - 1], targets[|targets| - 1];
      HostsAreDistinct(split, init);
      var host := split(last).0;
      if host !in Hosts(split, init) { DistinctSnoc(Hosts(split, init), host); }
      assert targets == init + [last];
      assert forall t :: t in targets <==> t in init || t == last;
    }
  }
}
