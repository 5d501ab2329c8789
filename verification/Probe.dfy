/**
 The test harness's own frame builder and parser, and how its parser relates to the
 switch's decoder.
 */
module Probe {
  import opened Wrappers
  import opened Wire

  /** IEEE 802 Local Experimental EtherType 1, and the marker that starts a payload. */
  const TEST_ETHERTYPE: uint16 := 0x88B5
  const MAGIC: Bytes := [0xDE, 0xAD, 0xBE, 0xEF]

  /** The frame for these arguments, padded by the serializer and then to `padTo`; VID
      zero stands for no tag. */
  function Frame(src: Mac, dst: Mac, vid: uint16, payload: Bytes, padTo: int, minLen: nat): Bytes {
    var body := MAGIC + payload;
    Pad(if vid != 0 then BuildTagged(dst, src, vid, TEST_ETHERTYPE, body, minLen)
        else BuildUntagged(dst, src, TEST_ETHERTYPE, body, minLen), Max(0, padTo))
  }

  method Serialize(src: Mac, dst: Mac, vid: uint16, payload: Bytes, padTo: int, minLen: nat) returns (frame: Bytes)
    ensures frame == Frame(src, dst, vid, payload, padTo, minLen)
  {
    var body := MAGIC + payload;
    if vid != 0 {
      frame := BuildTagged(dst, src, vid, TEST_ETHERTYPE, body, minLen);
    } else {
      frame := BuildUntagged(dst, src, TEST_ETHERTYPE, body, minLen);
    }
    if padTo > |frame| {
      frame := frame + Zeros(padTo - |frame|);
    }
  }

  /** What the parser reports: of several tags, it reads the first. */
  function Parsed(b: Bytes): Option<View> {
    if |b| < HEADER then None
    else
      var v := View(b[..6], b[6..12], None, U16(b[12], b[13]), b[HEADER..]);
      var p := v.payload;
      if v.innerType == DOT1Q && TAG <= |p| then
        Some(View(v.dst, v.src, Some(U16(p[0], p[1]) % 0x1000), U16(p[2], p[3]), p[TAG..]))
      else Some(v)
  }

  method Parse(b: Bytes) returns (r: Option<View>)
    ensures r == Parsed(b)
  {
    if |b| < HEADER {
      return None;
    }
    var fi := View(b[..6], b[6..12], None, U16(b[12], b[13]), b[HEADER..]);
    if fi.innerType == DOT1Q && TAG <= |fi.payload| {
      var tag := fi.payload;
      fi := fi.(tag := Some(U16(tag[0], tag[1]) % 0x1000));
      fi := fi.(innerType := U16(tag[2], tag[3]));
      fi := fi.(payload := tag[TAG..]);
    }
    r := Some(fi);
  }

  predicate IsTest(v: View) {
    v.innerType == TEST_ETHERTYPE && |v.payload| >= 4 && v.payload[..4] == MAGIC
  }

  /** The view carries the marker and the given payload, and then zeros only. */
  predicate Carries(v: View, src: Mac, dst: Mac, vid: uint16, payload: Bytes) {
    && v.src == src && v.dst == dst
    && v.tag == (if vid != 0 then Some(vid) else None)
    && v.innerType == TEST_ETHERTYPE
    && MAGIC + payload <= v.payload
    && forall i :: |MAGIC + payload| <= i < |v.payload| ==> v.payload[i] == 0
  }

  /** The parser and the switch's decoder agree on a frame exactly if it is too short for
      both, or has no second tag. */
  lemma ParserAgreesIff(b: Bytes)
    ensures Parsed(b) == Decode(b)
            <==> (Parsed(b).Some? && Parsed(b).value.tag.Some? && Parsed(b).value.innerType == DOT1Q
                  ==> |Parsed(b).value.payload| < TAG)
  {
    if |b| >= HEADER {
      var v := View(b[..6], b[6..12], None, U16(b[12], b[13]), b[HEADER..]);
      assert Decode(b) == Some(DecodeTags(v));
      var w := Parsed(b).value;
      assert w.tag.Some? ==> DecodeTags(v) == DecodeTags(w);
    }
  }

  /** What the parser reads where: of several tags the first, at its fixed place. */
  lemma ParsedBytes(b: Bytes)
    ensures Parsed(b).Some? <==> 14 <= |b|
    ensures 14 <= |b| ==>
              Parsed(b).value == if HasTag(b) then View(b[..6], b[6..12], Some(Word(b, 14) % 4096), Word(b, 16), b[18..])
                                 else View(b[..6], b[6..12], None, Word(b, 12), b[14..])
  {
    if HasTag(b) {
      assert b[14..][4..] == b[18..];
    }
  }

  /** Which frames count as the harness's own, byte for byte: those with 88 B5 DE AD BE EF
      after the addresses, or after one tag. */
  lemma TestFramesIff(b: Bytes)
    ensures (Parsed(b).Some? && IsTest(Parsed(b).value)) <==>
            || (18 <= |b| && b[12..18] == [0x88, 0xB5, 0xDE, 0xAD, 0xBE, 0xEF])
            || (22 <= |b| && b[12] == 0x81 && b[13] == 0x00 && b[16..22] == [0x88, 0xB5, 0xDE, 0xAD, 0xBE, 0xEF])
  {
    if 14 <= |b| {
      StartsAt(b, 12);
      if 18 <= |b| {
        StartsAt(b, 16);
      }
    }
  }

  lemma StartsAt(b: Bytes, at: nat)
    requires at + 2 <= |b|
    ensures (U16(b[at], b[at + 1]) == TEST_ETHERTYPE && 4 <= |b[at + 2..]| && b[at + 2..][..4] == MAGIC)
            <==> at + 6 <= |b| && b[at..at + 6] == [0x88, 0xB5, 0xDE, 0xAD, 0xBE, 0xEF]
  {
    if at + 6 <= |b| {
      var six := b[at..at + 6];
      assert six[0] == b[at] && six[1] == b[at + 1] && six[2] == b[at + 2] && six[3] == b[at + 3]
          && six[4] == b[at + 4] && six[5] == b[at + 5];
      var four := b[at + 2..][..4];
      assert four[0] == b[at + 2] && four[1] == b[at + 3] && four[2] == b[at + 4] && four[3] == b[at + 5];
    }
  }

  /** The tag for a VID; zero stands for no tag. */
  function TagBytes(vid: uint16): Bytes {
    if vid != 0 then [0x81, 0x00, vid / 256, vid % 256] else []
  }

  /** The frame that the builder makes, byte for byte. */
  lemma FrameBytes(src: Mac, dst: Mac, vid: uint16, payload: Bytes, padTo: int, minLen: nat)
    ensures Frame(src, dst, vid, payload, padTo, minLen)
         == Pad(dst + src + TagBytes(vid) + [0x88, 0xB5, 0xDE, 0xAD, 0xBE, 0xEF] + payload, Max(minLen, Max(0, padTo)))
  {
    var body := MAGIC + payload;
    var tag := TagBytes(vid);
    BuiltBytes(dst, src, vid, TEST_ETHERTYPE, body, minLen);
    var head := if vid != 0 then dst + src + [0x81, 0x00, vid / 256, vid % 256, 0x88, 0xB5] + body
                else dst + src + [0x88, 0xB5] + body;
    assert head == dst + src + tag + [0x88, 0xB5, 0xDE, 0xAD, 0xBE, 0xEF] + payload;
    PadTwice(head, minLen, Max(0, padTo));
  }

  lemma PadTwice(f: Bytes, m: nat, n: nat)
    ensures Pad(Pad(f, m), n) == Pad(f, Max(m, n))
  {
  }

  /** Builder and parser: whatever the payload and the padding, the frame is long enough
      and parses back to what it was built from; the switch's decoder reads it the same. */
  lemma ProbeRoundTrip(src: Mac, dst: Mac, vid: uint16, payload: Bytes, padTo: int, minLen: nat)
    requires vid < 0x1000
    ensures var f := Frame(src, dst, vid, payload, padTo, minLen);
            && |f| >= padTo
            && Parsed(f).Some? && Carries(Parsed(f).value, src, dst, vid, payload) && IsTest(Parsed(f).value)
            && Decode(f) == Parsed(f)
  {
    var f := Frame(src, dst, vid, payload, padTo, minLen);
    var body := MAGIC + payload;
    var n := Max(minLen, Max(0, padTo));
    if vid != 0 {
      PadTwice(Header(dst, src, DOT1Q) + PutU16(vid) + PutU16(TEST_ETHERTYPE) + body, minLen, Max(0, padTo));
      DecodeTagged(dst, src, vid, TEST_ETHERTYPE, body, n);
      assert f == BuildTagged(dst, src, vid, TEST_ETHERTYPE, body, n);
    } else {
      PadTwice(Header(dst, src, TEST_ETHERTYPE) + body, minLen, Max(0, padTo));
      DecodeUntagged(dst, src, TEST_ETHERTYPE, body, n);
      assert f == BuildUntagged(dst, src, TEST_ETHERTYPE, body, n);
    }
    ParserAgrees(f);
  }

  lemma ParserAgrees(b: Bytes)
    requires Decode(b).Some? && Decode(b).value.innerType == TEST_ETHERTYPE
    requires U16(b[12], b[13]) == DOT1Q && TAG <= |b| - HEADER ==> U16(b[16], b[17]) != DOT1Q
    ensures Parsed(b) == Decode(b)
  {
    ParserAgreesIff(b);
  }

  /** What the switch makes of a probe: sent on for a VLAN, it is still a probe with the
      same content, tagged with that VLAN on a trunk and untagged elsewhere. */
  lemma ProbeThroughSwitch(src: Mac, dst: Mac, vid: uint16, payload: Bytes, padTo: int, minLen: nat, wantsTag: bool, to: uint16)
    requires vid < 0x1000 && (wantsTag ==> if vid != 0 then to == vid else to < 0x1000)
    ensures var f := Frame(src, dst, vid, payload, padTo, minLen);
            Decode(f).Some?
            && var d := Decode(Egress(wantsTag, Decode(f).value, f, to, minLen));
               && d.Some? && IsTest(d.value)
               && Carries(d.value, src, dst, if wantsTag then to else 0, payload) == (wantsTag ==> to != 0)
  {
    var f := Frame(src, dst, vid, payload, padTo, minLen);
    ProbeRoundTrip(src, dst, vid, payload, padTo, minLen);
    var v := Decode(f).value;
    EgressCorrect(wantsTag, f, v, to, minLen);
    var w := Decode(Egress(wantsTag, v, f, to, minLen)).value;
    assert v.payload[..4] == MAGIC;
    forall i | |MAGIC + payload| <= i < |w.payload|
      ensures w.payload[i] == 0
    {
      assert i < |v.payload| ==> w.payload[i] == v.payload[i];
    }
  }
}
