/**
 The command line's port specifications, `name:vid` and `name:vid,vid,...`: how they are
 parsed, and how the management client prints a trunk's VIDs back.
 */
module PortSpecs {
  import opened Wrappers
  import opened Wire
  import opened Config

  // ---- strings ----

  /** White space, as trimming understands it. */
  predicate IsSpace(c: char) {
    || c == ' ' || '\t' <= c <= '\r' || c == '\U{85}' || c == '\U{A0}'
    || c == '\U{1680}' || '\U{2000}' <= c <= '\U{200A}' || c == '\U{2028}' || c == '\U{2029}'
    || c == '\U{202F}' || c == '\U{205F}' || c == '\U{3000}'
  }

  function TrimSpace(s: string): string {
    if s == "" then s
    else if IsSpace(s[0]) then TrimSpace(s[1..])
    else if IsSpace(s[|s| - 1]) then TrimSpace(s[..|s| - 1])
    else s
  }

  /** The parts before and after the first separator, if there is one. */
  function Cut(s: string, sep: char): Option<(string, string)> {
    if s == "" then None
    else if s[0] == sep then Some(("", s[1..]))
    else match Cut(s[1..], sep)
         case None => None
         case Some((before, after)) => Some(([s[0]] + before, after))
  }

  /** The parts between separators: one more than there are separators. */
  function Split(s: string, sep: char): (parts: seq<string>)
    ensures |parts| > 0
    decreases |s|
  {
    match Cut(s, sep)
    case None => [s]
    case Some((before, after)) =>
      CutParts(s, sep);
      [before] + Split(after, sep)
  }

  function Join(parts: seq<string>, sep: char): string {
    if |parts| == 0 then ""
    else if |parts| == 1 then parts[0]
    else parts[0] + [sep] + Join(parts[1..], sep)
  }

  lemma {:induction false} CutParts(s: string, sep: char)
    ensures Cut(s, sep).Some? ==> s == Cut(s, sep).value.0 + [sep] + Cut(s, sep).value.1 && sep !in Cut(s, sep).value.0
    ensures Cut(s, sep).None? <==> sep !in s
  {
    if s != "" {
      CutParts(s[1..], sep);
      assert s == [s[0]] + s[1..];
    }
  }

  lemma {:induction false} CutFinds(before: string, sep: char, after: string)
    requires sep !in before
    ensures Cut(before + [sep] + after, sep) == Some((before, after))
  {
    var s := before + [sep] + after;
    if before == "" {
      assert s == [sep] + after;
    } else {
      assert s[1..] == before[1..] + [sep] + after;
      CutFinds(before[1..], sep, after);
      assert [before[0]] + before[1..] == before;
    }
  }

  /** Splitting undoes joining. */
  lemma {:induction false} SplitJoin(parts: seq<string>, sep: char)
    requires |parts| > 0 && forall p :: p in parts ==> sep !in p
    ensures Split(Join(parts, sep), sep) == parts
  {
    if |parts| == 1 {
      CutParts(parts[0], sep);
    } else {
      CutFinds(parts[0], sep, Join(parts[1..], sep));
      SplitJoin(parts[1..], sep);
    }
  }

  // ---- numbers ----

  predicate IsDigit(c: char) {
    '0' <= c <= '9'
  }

  predicate AllDigits(s: string) {
    forall i :: 0 <= i < |s| ==> IsDigit(s[i])
  }

  function Value(s: string): nat
    requires AllDigits(s)
  {
    if s == "" then 0 else 10 * Value(s[..|s| - 1]) + (s[|s| - 1] as int - '0' as int)
  }

  function Decimal(n: nat): (s: string)
    ensures |s| > 0 && AllDigits(s) && Value(s) == n
  {
    var digit := ('0' as int + n % 10) as char;
    if n < 10 then [digit] else Decimal(n / 10) + [digit]
  }

  /** Decimal, unsigned, not empty, and at most 16 bits. */
  function ParseUint16(s: string): Option<uint16> {
    if s != "" && AllDigits(s) && Value(s) < 0x1_0000 then Some(Value(s)) else None
  }

  const MAX_VID := 4094

  function ParseVID(s: string): (vid: Option<uint16>)
    ensures vid.Some? ==> 1 <= vid.value <= MAX_VID
  {
    match ParseUint16(TrimSpace(s))
    case None => None
    case Some(n) => if n == 0 || n > MAX_VID then None else Some(n)
  }

  lemma ParseDecimal(n: uint16)
    requires 1 <= n <= MAX_VID
    ensures ParseVID(Decimal(n)) == Some(n)
  {
    var s := Decimal(n);
    assert IsDigit(s[0]) && IsDigit(s[|s| - 1]);
    assert TrimSpace(s) == s;
  }

  // ---- what counts as a number ----

  predicate AllSpaces(s: string) {
    forall i :: 0 <= i < |s| ==> IsSpace(s[i])
  }

  /** Nothing to trim. */
  predicate Trimmed(s: string) {
    s != "" ==> !IsSpace(s[0]) && !IsSpace(s[|s| - 1])
  }

  lemma ChopFront(l: string, s: string, r: string)
    requires l != ""
    ensures (l + s + r)[0] == l[0] && (l + s + r)[1..] == l[1..] + s + r
    ensures l + s + r == [l[0]] + (l[1..] + s + r)
  {
  }

  lemma ChopBack(l: string, s: string, r: string)
    requires r != ""
    ensures var t, n := l + s + r, |l| + |s| + |r| - 1;
            |t| == n + 1 && t[n] == r[|r| - 1] && t[..n] == l + s + r[..|r| - 1]
  {
  }

  /** Trimming removes the spaces around a text, and nothing else. */
  lemma {:induction false} TrimAround(l: string, s: string, r: string)
    requires AllSpaces(l) && Trimmed(s) && AllSpaces(r)
    ensures TrimSpace(l + s + r) == s
    decreases |l| + |r|, |r|
  {
    if l != "" {
      ChopFront(l, s, r);
      TrimAround(l[1..], s, r);
    } else if r == "" {
      assert l + s + r == s;
    } else if s == "" {
      assert l + s + r == r + s + l;
      TrimAround(r, s, l);
    } else {
      ChopBack(l, s, r);
      assert (l + s + r)[0] == s[0];
      TrimAround(l, s, r[..|r| - 1]);
    }
  }

  lemma Enclose(c: char, l: string, t: string, r: string, d: char)
    ensures [c] + (l + t + r) == ([c] + l) + t + r
    ensures (l + t + r) + [d] == l + t + (r + [d])
  {
  }

  /** What was trimmed is spaces. */
  lemma {:induction false} TrimParts(s: string) returns (l: string, r: string)
    ensures s == l + TrimSpace(s) + r && AllSpaces(l) && AllSpaces(r) && Trimmed(TrimSpace(s))
    decreases |s|
  {
    if s == "" {
      l, r := "", "";
    } else if IsSpace(s[0]) {
      var l0;
      l0, r := TrimParts(s[1..]);
      l := [s[0]] + l0;
      Enclose(s[0], l0, TrimSpace(s), r, s[0]);
      assert s == [s[0]] + s[1..];
    } else if IsSpace(s[|s| - 1]) {
      var r0;
      l, r0 := TrimParts(s[..|s| - 1]);
      r := r0 + [s[|s| - 1]];
      Enclose(s[0], l, TrimSpace(s), r0, s[|s| - 1]);
      assert s == s[..|s| - 1] + [s[|s| - 1]];
    } else {
      l, r := "", "";
    }
  }

  function Pow10(n: nat): nat {
    if n == 0 then 1 else 10 * Pow10(n - 1)
  }

  lemma Distribute(a: nat, p: nat, b: nat, d: nat)
    ensures 10 * (a * p + b) + d == a * (10 * p) + (10 * b + d)
  {
  }

  /** The value of digits is positional: the first are worth ten times more for each digit
      that follows. */
  lemma {:induction false} ValueIsPositional(a: string, b: string)
    requires AllDigits(a) && AllDigits(b)
    ensures AllDigits(a + b) && Value(a + b) == Value(a) * Pow10(|b|) + Value(b)
  {
    if b == "" {
      assert a + b == a;
    } else {
      var most, last := b[..|b| - 1], b[|b| - 1];
      ValueIsPositional(a, most);
      assert (a + b)[..|a + b| - 1] == a + most;
      Distribute(Value(a), Pow10(|most|), Value(most), last as int - '0' as int);
    }
  }

  /** A single digit is worth what it says. */
  lemma DigitsCount(c: char)
    requires IsDigit(c)
    ensures Value([c]) == c as int - '0' as int
    ensures Value("0") == 0 && Value("9") == 9 && Value("10") == 10
  {
    assert [c][..0] == "" && "10"[..1] == "1" && "1"[..0] == "" && "0"[..0] == "" && "9"[..0] == "";
  }

  /** Numbers are printed without leading zeros. */
  lemma {:induction false} NoLeadingZero(n: nat)
    ensures n > 0 ==> Decimal(n)[0] != '0'
    ensures n == 0 ==> Decimal(n) == "0"
  {
    if n >= 10 {
      NoLeadingZero(n / 10);
    }
  }

  /** The text is this number in decimal digits, with any spaces around it. */
  ghost predicate Spaced(s: string, n: nat) {
    exists l, d, r :: s == l + d + r && AllSpaces(l) && AllSpaces(r) && d != "" && AllDigits(d) && Value(d) == n
  }

  /** Which texts are VIDs: exactly the numbers from 1 to 4094, with any spaces around them. */
  lemma ParsesIff(s: string, n: uint16)
    ensures ParseVID(s) == Some(n) <==> 1 <= n <= 4094 && Spaced(s, n)
  {
    if ParseVID(s) == Some(n) {
      var l, r := TrimParts(s);
      assert s == l + TrimSpace(s) + r;
    }
    if Spaced(s, n) {
      var l, d, r :| s == l + d + r && AllSpaces(l) && AllSpaces(r) && d != "" && AllDigits(d) && Value(d) == n;
      assert IsDigit(d[0]) && IsDigit(d[|d| - 1]);
      TrimAround(l, d, r);
    }
  }

  predicate Blank(s: string) {
    forall i :: 0 <= i < |s| ==> s[i] in " \t\r\n"
  }

  /** Blanks, tabs and line ends are spaces. */
  lemma BlanksAreSpaces(s: string)
    requires Blank(s)
    ensures AllSpaces(s)
  {
  }

  // ---- specifications ----

  datatype SpecError = NoName | BadVID(part: string)

  function ParseAll(parts: seq<string>): Result<seq<uint16>, SpecError> {
    if parts == [] then Success([])
    else match ParseVID(parts[0])
         case None => Failure(BadVID(parts[0]))
         case Some(vid) =>
           Prepend([vid], ParseAll(parts[1..]))
  }

  /** What `name:vid,vid,...` means. */
  function NameVids(s: string): Result<(string, seq<uint16>), SpecError> {
    match Cut(s, ':')
    case None => Failure(NoName)
    case Some((name, rest)) =>
      if name == "" then Failure(NoName)
      else match ParseAll(Split(rest, ','))
           case Failure(e) => Failure(e)
           case Success(vids) => Success((name, vids))
  }

  /** What `name:vid` means. */
  function NameVid(s: string): Result<(string, uint16), SpecError> {
    match Cut(s, ':')
    case None => Failure(NoName)
    case Some((name, rest)) =>
      if name == "" then Failure(NoName)
      else match ParseVID(rest)
           case None => Failure(BadVID(rest))
           case Some(vid) => Success((name, vid))
  }

  method SplitNameVIDs(s: string) returns (r: Result<(string, seq<uint16>), SpecError>)
    ensures r == NameVids(s)
  {
    var cut := Cut(s, ':');
    if cut.None? || cut.value.0 == "" {
      return Failure(NoName);
    }
    var vids := ParseParts(Split(cut.value.1, ','));
    if vids.Failure? {
      return Failure(vids.error);
    }
    r := Success((cut.value.0, vids.value));
  }

  /** The loop over the parts stops at the first that is not a VID. */
  method ParseParts(parts: seq<string>) returns (r: Result<seq<uint16>, SpecError>)
    ensures r == ParseAll(parts)
  {
    var vids := [];
    assert parts[0..] == parts && Prepend([], ParseAll(parts)) == ParseAll(parts) by {
      if ParseAll(parts).Success? {
        assert [] + ParseAll(parts).value == ParseAll(parts).value;
      }
    }
    for i := 0 to |parts|
      invariant ParseAll(parts) == Prepend(vids, ParseAll(parts[i..]))
    {
      var vid := ParseVID(parts[i]);
      assert parts[i..][1..] == parts[i + 1..];
      if vid.None? {
        return Failure(BadVID(parts[i]));
      }
      PrependOne(vids, vid.value, ParseAll(parts[i + 1..]));
      vids := vids + [vid.value];
    }
    assert vids + [] == vids;
    r := Success(vids);
  }

  function Prepend(vids: seq<uint16>, r: Result<seq<uint16>, SpecError>): Result<seq<uint16>, SpecError> {
    match r
    case Failure(e) => Failure(e)
    case Success(more) => Success(vids + more)
  }

  lemma PrependOne(vids: seq<uint16>, vid: uint16, r: Result<seq<uint16>, SpecError>)
    ensures Prepend(vids, Prepend([vid], r)) == Prepend(vids + [vid], r)
  {
    if r.Success? {
      assert vids + ([vid] + r.value) == vids + [vid] + r.value;
    }
  }

  /** The trunk column: the VIDs in decimal, joined by commas, or a dash. */
  function TrunkText(vids: seq<uint16>): string {
    if vids == [] then "-" else Join(Decimals(vids), ',')
  }

  function Decimals(vids: seq<uint16>): (parts: seq<string>)
    ensures |parts| == |vids| && forall i :: 0 <= i < |vids| ==> parts[i] == Decimal(vids[i])
  {
    seq(|vids|, i requires 0 <= i < |vids| => Decimal(vids[i]))
  }

  /** The printed column has one number for each VID, in order, or is a dash. */
  lemma TrunkTextMeans(vids: seq<uint16>)
    ensures TrunkText([]) == "-"
    ensures vids != [] ==> Split(TrunkText(vids), ',') == Decimals(vids)
  {
    if vids != [] {
      forall p | p in Decimals(vids)
        ensures ',' !in p
      {
        assert AllDigits(p);
      }
      SplitJoin(Decimals(vids), ',');
    }
  }

  method RenderTrunk(vids: seq<uint16>) returns (text: string)
    ensures text == TrunkText(vids)
  {
    text := "-";
    if |vids| > 0 {
      var parts := new string[|vids|];
      for i := 0 to |vids|
        invariant forall j :: 0 <= j < i ==> parts[j] == Decimal(vids[j])
      {
        parts[i] := Decimal(vids[i]);
      }
      assert parts[..] == Decimals(vids);
      text := Join(parts[..], ',');
    }
  }

  lemma {:induction false} ParseDecimals(vids: seq<uint16>)
    requires forall i :: 0 <= i < |vids| ==> 1 <= vids[i] <= MAX_VID
    ensures ParseAll(Decimals(vids)) == Success(vids)
  {
    if vids != [] {
      ParseDecimal(vids[0]);
      ParseDecimals(vids[1..]);
      assert Decimals(vids)[1..] == Decimals(vids[1..]) && [vids[0]] + vids[1..] == vids;
    }
  }

  /** Round trip: a name and the VIDs as the client prints them parse back to themselves. */
  lemma SpecRoundTrip(name: string, vids: seq<uint16>)
    requires name != "" && ':' !in name
    requires vids != [] && forall i :: 0 <= i < |vids| ==> 1 <= vids[i] <= MAX_VID
    ensures NameVids(name + ":" + TrunkText(vids)) == Success((name, vids))
  {
    CutFinds(name, ':', TrunkText(vids));
    var parts := Decimals(vids);
    forall p | p in parts
      ensures ',' !in p
    {
      assert AllDigits(p);
    }
    SplitJoin(parts, ',');
    ParseDecimals(vids);
  }

  lemma {:induction false} ParseAllExact(parts: seq<string>)
    ensures ParseAll(parts).Success? <==> forall i :: 0 <= i < |parts| ==> ParseVID(parts[i]).Some?
    ensures ParseAll(parts).Success? ==>
              && |ParseAll(parts).value| == |parts|
              && forall i :: 0 <= i < |parts| ==> ParseVID(parts[i]) == Some(ParseAll(parts).value[i])
  {
    if parts != [] {
      ParseAllExact(parts[1..]);
      assert forall i :: 0 < i < |parts| ==> parts[i] == parts[1..][i - 1];
    }
  }

  /** The string is this name, a colon, and parts that all are VIDs. */
  predicate Spells(s: string, name: string, rest: string) {
    && s == name + [':'] + rest && name != "" && ':' !in name
    && forall i :: 0 <= i < |Split(rest, ',')| ==> ParseVID(Split(rest, ',')[i]).Some?
  }

  /** Which strings are accepted: those with a name before the first colon, and a VID in
      every comma-separated part after it; and then there is one VID for each part. */
  lemma SpecAcceptsExactly(s: string)
    ensures NameVids(s).Success? <==> exists name, rest :: Spells(s, name, rest)
    ensures NameVids(s).Success? ==>
            var (name, vids) := NameVids(s).value;
            exists rest :: Spells(s, name, rest) && |vids| == |Split(rest, ',')|
                           && forall i :: 0 <= i < |vids| ==> ParseVID(Split(rest, ',')[i]) == Some(vids[i])
  {
    CutParts(s, ':');
    if Cut(s, ':').Some? {
      var (name, rest) := Cut(s, ':').value;
      ParseAllExact(Split(rest, ','));
      if NameVids(s).Success? {
        assert Spells(s, name, rest);
      }
    }
    forall n, r | Spells(s, n, r)
      ensures Cut(s, ':') == Some((n, r))
    {
      CutFinds(n, ':', r);
    }
  }

  // ---- the flags ----

  datatype Flag = PlainFlag | AccessFlag | TrunkFlag

  /** A configuration as the command line can make it: one role, VIDs in range. */
  predicate FromFlags(c: PortConfig) {
    && (c.accessVID == 0 || c.trunk == [])
    && c.accessVID <= MAX_VID
    && forall i :: 0 <= i < |c.trunk| ==> 1 <= c.trunk[i] <= MAX_VID
  }

  /** What one flag adds. */
  function ConfigOf(flag: Flag, v: string): (r: Result<PortConfig, SpecError>)
    ensures r.Success? ==> FromFlags(r.value)
  {
    match flag
    case PlainFlag => Success(PortConfig(v, 0, []))
    case AccessFlag =>
      (match NameVid(v)
       case Failure(e) => Failure(e)
       case Success((name, vid)) => Success(PortConfig(name, vid, [])))
    case TrunkFlag =>
      match NameVids(v)
      case Failure(e) => Failure(e)
      case Success((name, vids)) =>
        ParseAllExact(Split(Cut(v, ':').value.1, ','));
        Success(PortConfig(name, 0, vids))
  }

  /** What `name:text` means after an access flag: a port with this name and the VID that the
      text is, or an error if it is none. */
  lemma AccessFlagMeans(name: string, text: string)
    requires name != "" && ':' !in name
    ensures ConfigOf(AccessFlag, name + ":" + text)
         == match ParseVID(text)
            case Some(vid) => Success(PortConfig(name, vid, []))
            case None => Failure(BadVID(text))
  {
    CutFinds(name, ':', text);
  }

  /** What it means after a trunk flag: a port with this name and the VIDs that the
      comma-separated parts are, in order, or an error if one of them is none. */
  lemma TrunkFlagMeans(name: string, parts: seq<string>)
    requires name != "" && ':' !in name && parts != [] && forall p :: p in parts ==> ',' !in p
    ensures var r := ConfigOf(TrunkFlag, name + ":" + Join(parts, ','));
            && (r.Success? <==> forall i :: 0 <= i < |parts| ==> ParseVID(parts[i]).Some?)
            && (r.Success? ==>
                  && r.value.name == name && r.value.accessVID == 0 && |r.value.trunk| == |parts|
                  && forall i :: 0 <= i < |parts| ==> ParseVID(parts[i]) == Some(r.value.trunk[i]))
  {
    CutFinds(name, ':', Join(parts, ','));
    SplitJoin(parts, ',');
    ParseAllExact(parts);
  }

  /** A plain flag takes the whole text as the name. The others refuse a text without a colon,
      or with nothing before it. */
  lemma NamesAreNeeded(text: string)
    ensures ConfigOf(PlainFlag, text) == Success(PortConfig(text, 0, []))
    ensures ':' !in text || text[0] == ':' ==>
              ConfigOf(AccessFlag, text) == ConfigOf(TrunkFlag, text) == Failure(NoName)
  {
    CutParts(text, ':');
  }

  lemma PaddedVid(l: string, n: uint16, r: string)
    requires Blank(l) && Blank(r) && 1 <= n <= MAX_VID
    ensures ParseVID(l + Decimal(n) + r) == Some(n) && ',' !in l + Decimal(n) + r
  {
    BlanksAreSpaces(l);
    BlanksAreSpaces(r);
    ParsesIff(l + Decimal(n) + r, n);
  }

  /** Blanks around the VIDs do not matter. */
  lemma BlanksDoNotMatter(name: string, before: seq<string>, vids: seq<uint16>, after: seq<string>, parts: seq<string>)
    requires name != "" && ':' !in name && vids != [] && |before| == |after| == |parts| == |vids|
    requires forall i :: 0 <= i < |vids| ==> 1 <= vids[i] <= MAX_VID && Blank(before[i]) && Blank(after[i])
    requires forall i :: 0 <= i < |vids| ==> parts[i] == before[i] + Decimal(vids[i]) + after[i]
    ensures ConfigOf(TrunkFlag, name + ":" + Join(parts, ',')) == Success(PortConfig(name, 0, vids))
    ensures ConfigOf(AccessFlag, name + ":" + parts[0]) == Success(PortConfig(name, vids[0], []))
  {
    forall i | 0 <= i < |parts|
      ensures ParseVID(parts[i]) == Some(vids[i]) && ',' !in parts[i]
    {
      PaddedVid(before[i], vids[i], after[i]);
    }
    TrunkFlagMeans(name, parts);
    var r := ConfigOf(TrunkFlag, name + ":" + Join(parts, ','));
    assert r.value.trunk == vids;
    AccessFlagMeans(name, parts[0]);
  }

  /** The shared list that all port flags append to, in command-line order. */
  class Flags {
    var cfgs: seq<PortConfig>

    predicate Valid()
      reads this
    {
      forall i :: 0 <= i < |cfgs| ==> FromFlags(cfgs[i])
    }

    constructor ()
      ensures Valid() && cfgs == []
    {
      cfgs := [];
    }

    method Set(flag: Flag, v: string) returns (e: Option<SpecError>)
      requires Valid()
      modifies this
      ensures Valid()
      ensures match ConfigOf(flag, v)
              case Success(c) => e == None && cfgs == old(cfgs) + [c]
              case Failure(err) => e == Some(err) && cfgs == old(cfgs)
    {
      match flag {
        case PlainFlag => cfgs := cfgs + [PortConfig(v, 0, [])];
        case AccessFlag =>
          var r := NameVid(v);
          if r.Failure? {
            return Some(r.error);
          }
          cfgs := cfgs + [PortConfig(r.value.0, r.value.1, [])];
        case TrunkFlag =>
          var r := SplitNameVIDs(v);
          if r.Failure? {
            return Some(r.error);
          }
          assert ConfigOf(flag, v) == Success(PortConfig(r.value.0, 0, r.value.1));
          cfgs := cfgs + [PortConfig(r.value.0, 0, r.value.1)];
      }
      e := None;
    }
  }

  /** Every VLAN that a port from the command line is in fits the 12 bits of a tag, and a
      port from the command line never has two roles. */
  lemma FlagVidsFitTags(c: PortConfig, vid: uint16)
    requires FromFlags(c) && SpecOf(c).Has(vid)
    ensures vid <= MAX_VID < 0x1000
    ensures vid == 0 <==> SpecOf(c).role.Plain?
  {
    if SpecOf(c).role.Trunk? {
      var i :| 0 <= i < |c.trunk| && c.trunk[i] == vid;
    }
  }
}
