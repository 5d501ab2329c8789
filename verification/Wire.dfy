/**
 The wire format: Ethernet frames with IEEE 802.1Q tags (section 9.6 of
 IEEE 802.1Q-2018), how the switch decodes them and how it rewrites tags on egress.

 The decoder stops at the first payload it does not know, and reuses one tag
 record, so that of several stacked tags the last one wins. A tag that is cut
 short is not decoded: such a frame counts as untagged with inner type 0x8100.
 Serialized frames are padded with zeros to `minLen` bytes.
 */
module Wire {
  import opened Wrappers

  type byte = b: int | 0 <= b < 0x100

  type uint16 = n: int | 0 <= n < 0x1_0000

  type Bytes = seq<byte>

  type Mac = m: Bytes | |m| == 6 witness [0, 0, 0, 0, 0, 0]

  /** The EtherType that announces an 802.1Q tag. */
  const DOT1Q: uint16 := 0x8100

  /** The lengths of an Ethernet header and of a tag, in bytes. */
  const HEADER := 14
  const TAG := 4

  /** The decoded view of a frame; `tag` is the VID of the last decoded tag, and
      `innerType` and `payload` are what follows it. */
  datatype View = View(dst: Mac, src: Mac, tag: Option<uint16>, innerType: uint16, payload: Bytes)

  /** Multicast and broadcast addresses have the low bit of the first byte set. */
  predicate IsUnicast(mac: Mac) {
    mac[0] % 2 == 0
  }

  function Max(a: int, b: int): int {
    if a < b then b else a
  }

  // ---- bytes ----

  function U16(hi: byte, lo: byte): uint16 {
    hi * 0x100 + lo
  }

  function PutU16(n: uint16): Bytes {
    [n / 0x100, n % 0x100]
  }

  function Zeros(n: nat): (z: Bytes)
    ensures |z| == n && forall i :: 0 <= i < n ==> z[i] == 0
  {
    seq(n, i => 0)
  }

  function Pad(f: Bytes, minLen: nat): (p: Bytes)
    ensures f <= p && |p| == Max(|f|, minLen)
    ensures forall i :: |f| <= i < |p| ==> p[i] == 0
  {
    if |f| < minLen then f + Zeros(minLen - |f|) else f
  }

  // ---- decoding ----

  function Decode(frame: Bytes): Option<View> {
    if |frame| < HEADER then
      None
    else
      Some(DecodeTags(View(frame[..6], frame[6..12], None, U16(frame[12], frame[13]), frame[HEADER..])))
  }

  function DecodeTags(v: View): (w: View)
    ensures w.dst == v.dst && w.src == v.src
    ensures w.innerType == DOT1Q ==> |w.payload| < TAG
    ensures w.tag.Some? ==> w.tag == v.tag || w.tag.value < 0x1000
    ensures v.tag.Some? ==> w.tag.Some?
    decreases |v.payload|
  {
    if v.innerType == DOT1Q && TAG <= |v.payload| then
      var p := v.payload;
      DecodeTags(View(v.dst, v.src, Some(U16(p[0], p[1]) % 0x1000), U16(p[2], p[3]), p[TAG..]))
    else
      v
  }

  // ---- serializing ----

  function Header(dst: Mac, src: Mac, etherType: uint16): (h: Bytes)
    ensures |h| == HEADER
  {
    dst + src + PutU16(etherType)
  }

  function BuildTagged(dst: Mac, src: Mac, vid: uint16, innerType: uint16, payload: Bytes, minLen: nat): Bytes {
    Pad(Header(dst, src, DOT1Q) + PutU16(vid) + PutU16(innerType) + payload, minLen)
  }

  function BuildUntagged(dst: Mac, src: Mac, innerType: uint16, payload: Bytes, minLen: nat): Bytes {
    Pad(Header(dst, src, innerType) + payload, minLen)
  }

  /** The bytes `emit` writes for a frame `raw`, decoded as `v` and classified to
      `vid`, on a port that sends tagged frames or not. */
  function Egress(wantsTag: bool, v: View, raw: Bytes, vid: uint16, minLen: nat): Bytes {
    if wantsTag == v.tag.Some? then
      raw
    else if wantsTag then
      BuildTagged(v.dst, v.src, vid, v.innerType, v.payload, minLen)
    else
      BuildUntagged(v.dst, v.src, v.innerType, v.payload, minLen)
  }

  // ---- what a rewritten frame means ----

  /** `w` carries the content of `v`: same addresses and inner type, and the payload
      of `v` followed by zeros only, never padded beyond the minimum frame. */
  predicate SameContent(v: View, w: View, minLen: nat) {
    && w.dst == v.dst && w.src == v.src && w.innerType == v.innerType
    && v.payload <= w.payload
    && (forall i :: |v.payload| <= i < |w.payload| ==> w.payload[i] == 0)
    && |w.payload| <= Max(|v.payload|, minLen - HEADER)
  }

  /** The tag that a frame of VLAN `vid` must carry on egress. */
  function WantedTag(wantsTag: bool, vid: uint16): Option<uint16> {
    if wantsTag then Some(vid) else None
  }

  /** The rebuilt frame would hide a tag announced by the payload type: after padding
      there are enough bytes for the announced tag to be decoded. */
  predicate TornTag(wantsTag: bool, v: View, minLen: nat) {
    && v.innerType == DOT1Q
    && wantsTag != v.tag.Some?
    && HEADER + (if wantsTag then TAG else 0) + TAG <= minLen
  }

  lemma HeaderBytes(dst: Mac, src: Mac, etherType: uint16, rest: Bytes)
    ensures var f := Header(dst, src, etherType) + rest;
            f[..6] == dst && f[6..12] == src && U16(f[12], f[13]) == etherType && f[HEADER..] == rest
  {
  }

  lemma DecodeHeader(dst: Mac, src: Mac, etherType: uint16, rest: Bytes)
    ensures Decode(Header(dst, src, etherType) + rest) == Some(DecodeTags(View(dst, src, None, etherType, rest)))
  {
    HeaderBytes(dst, src, etherType, rest);
  }

  /** Padding a frame pads what follows the header. */
  lemma PadAfter(h: Bytes, body: Bytes, minLen: nat)
    ensures Pad(h + body, minLen) == h + Pad(body, Max(0, minLen - |h|))
  {
    var n := minLen - |h|;
    if |h + body| < minLen {
      assert h + body + Zeros(minLen - |h + body|) == h + (body + Zeros(n - |body|));
    }
  }

  lemma DecodeUntagged(dst: Mac, src: Mac, innerType: uint16, payload: Bytes, minLen: nat)
    ensures Decode(BuildUntagged(dst, src, innerType, payload, minLen))
         == Some(DecodeTags(View(dst, src, None, innerType, Pad(payload, Max(0, minLen - HEADER)))))
  {
    var h := Header(dst, src, innerType);
    PadAfter(h, payload, minLen);
    DecodeHeader(dst, src, innerType, Pad(payload, Max(0, minLen - HEADER)));
  }

  lemma DecodeTag(v: View, vid: uint16, innerType: uint16, payload: Bytes)
    requires v.innerType == DOT1Q && v.payload == PutU16(vid) + PutU16(innerType) + payload
    requires vid < 0x1000
    ensures DecodeTags(v) == DecodeTags(View(v.dst, v.src, Some(vid), innerType, payload))
  {
    assert v.payload[TAG..] == payload;
  }

  lemma DecodeTagged(dst: Mac, src: Mac, vid: uint16, innerType: uint16, payload: Bytes, minLen: nat)
    requires vid < 0x1000
    ensures Decode(BuildTagged(dst, src, vid, innerType, payload, minLen))
         == Some(DecodeTags(View(dst, src, Some(vid), innerType, Pad(payload, Max(0, minLen - HEADER - TAG)))))
  {
    var h := Header(dst, src, DOT1Q);
    var t := PutU16(vid) + PutU16(innerType);
    var n := Max(0, minLen - HEADER - TAG);
    assert h + PutU16(vid) + PutU16(innerType) + payload == (h + t) + payload;
    PadAfter(h + t, payload, minLen);
    assert (h + t) + Pad(payload, n) == h + (t + Pad(payload, n));
    DecodeHeader(dst, src, DOT1Q, t + Pad(payload, n));
    DecodeTag(View(dst, src, None, DOT1Q, t + Pad(payload, n)), vid, innerType, Pad(payload, n));
  }

  /** A view whose type announces a tag that is too short, padded until the tag is
      long enough, no longer decodes to the same content. */
  lemma TornDecode(v: View, n: nat)
    requires v.innerType == DOT1Q && |v.payload| < TAG <= n
    ensures var w := DecodeTags(v.(payload := Pad(v.payload, n)));
            w.tag.Some? && !(w.innerType == DOT1Q && v.payload <= w.payload)
  {
    var p := Pad(v.payload, n);
    var u := View(v.dst, v.src, Some(U16(p[0], p[1]) % 0x1000), U16(p[2], p[3]), p[TAG..]);
    assert DecodeTags(v.(payload := p)) == DecodeTags(u);
    if u.innerType == DOT1Q {
      assert p[2] == 0x81 && |v.payload| == 3;
      if TAG <= |u.payload| {
        assert U16(u.payload[2], u.payload[3]) == 0;
      } else {
        assert DecodeTags(u) == u;
        assert |u.payload| == 3 ==> u.payload[2] == 0;
      }
    }
  }

  /**
   Egress correctness, and exactly when it holds. Whatever frame came in, the frame
   that goes out decodes with the wanted tag and carries the same content, unless the
   payload type announces a tag the frame was too short for and the rewritten frame is
   padded enough for that tag to be decoded from the padding.
   */
  lemma EgressCorrect(wantsTag: bool, raw: Bytes, v: View, vid: uint16, minLen: nat)
    requires Decode(raw) == Some(v)
    requires wantsTag ==> if v.tag.Some? then v.tag.value == vid else vid < 0x1000
    ensures var d := Decode(Egress(wantsTag, v, raw, vid, minLen));
            && d.Some?
            && ((d.value.tag == WantedTag(wantsTag, vid) && SameContent(v, d.value, minLen))
                <==> !TornTag(wantsTag, v, minLen))
  {
    if wantsTag != v.tag.Some? {
      var n := Max(0, minLen - HEADER - if wantsTag then TAG else 0);
      if wantsTag {
        DecodeTagged(v.dst, v.src, vid, v.innerType, v.payload, minLen);
      } else {
        DecodeUntagged(v.dst, v.src, v.innerType, v.payload, minLen);
      }
      var u := View(v.dst, v.src, WantedTag(wantsTag, vid), v.innerType, v.payload);
      if v.innerType == DOT1Q && TAG <= n {
        TornDecode(u, n);
      }
    }
  }

  /** A port that does not tag passes a frame on byte for byte exactly if the frame has no
      tag: between plain ports too, a tag is stripped. */
  lemma VerbatimIffUntagged(raw: Bytes, v: View, vid: uint16, minLen: nat)
    requires Decode(raw) == Some(v)
    ensures Egress(false, v, raw, vid, minLen) == raw <==> v.tag.None?
  {
    if v.tag.Some? {
      DecodeUntagged(v.dst, v.src, v.innerType, v.payload, minLen);
      var n := Max(0, minLen - HEADER);
      if v.innerType == DOT1Q && TAG <= n {
        TornDecode(View(v.dst, v.src, None, v.innerType, v.payload), n);
      }
    }
  }

  /** The VID that a torn tag shows once it is padded to n bytes: its own first two bytes,
      or zero if its third byte announces one more tag, read from the padding. */
  function TornVid(payload: Bytes, n: nat): uint16
    requires |payload| < TAG <= n
  {
    var p := Pad(payload, n);
    if U16(p[2], p[3]) == DOT1Q && 2 * TAG <= n then 0 else U16(p[0], p[1]) % 0x1000
  }

  /** A tag of zeros ends the decoding. */
  lemma ZeroTag(v: View)
    requires v.innerType == DOT1Q && TAG <= |v.payload| && forall i :: 0 <= i < TAG ==> v.payload[i] == 0
    ensures DecodeTags(v).tag == Some(0)
  {
    assert v.payload == PutU16(0) + PutU16(0) + v.payload[TAG..];
    DecodeTag(v, 0, 0, v.payload[TAG..]);
  }

  lemma TornVidShows(v: View, n: nat)
    requires v.innerType == DOT1Q && |v.payload| < TAG <= n
    ensures DecodeTags(v.(payload := Pad(v.payload, n))).tag == Some(TornVid(v.payload, n))
  {
    var p := Pad(v.payload, n);
    var u := View(v.dst, v.src, Some(U16(p[0], p[1]) % 0x1000), U16(p[2], p[3]), p[TAG..]);
    assert DecodeTags(v.(payload := p)) == DecodeTags(u);
    if u.innerType == DOT1Q && 2 * TAG <= n {
      ZeroTag(u);
    } else {
      assert DecodeTags(u) == u;
    }
  }

  /** The length that the payload of a rewritten frame is padded to. */
  function Room(wantsTag: bool, minLen: nat): nat {
    Max(0, minLen - HEADER - if wantsTag then TAG else 0)
  }

  /** What the decoder makes of a torn tag in a rewritten frame. */
  lemma TornEgress(wantsTag: bool, raw: Bytes, v: View, vid: uint16, minLen: nat)
    requires Decode(raw) == Some(v) && TornTag(wantsTag, v, minLen)
    requires wantsTag ==> if v.tag.Some? then v.tag.value == vid else vid < 0x1000
    ensures |v.payload| < TAG <= Room(wantsTag, minLen)
    ensures var d := Decode(Egress(wantsTag, v, raw, vid, minLen));
            d.Some? && d.value.tag == Some(TornVid(v.payload, Room(wantsTag, minLen)))
  {
    if wantsTag {
      DecodeTagged(v.dst, v.src, vid, v.innerType, v.payload, minLen);
    } else {
      DecodeUntagged(v.dst, v.src, v.innerType, v.payload, minLen);
    }
    TornVidShows(View(v.dst, v.src, WantedTag(wantsTag, vid), v.innerType, v.payload), Room(wantsTag, minLen));
  }

  // ---- byte for byte ----

  /** A whole tag follows the addresses. */
  predicate HasTag(f: Bytes) {
    18 <= |f| && f[12] == 0x81 && f[13] == 0x00
  }

  /** Where the type field is that follows all tags from here on. */
  function TypeOffset(f: Bytes, at: nat): (i: nat)
    requires at + 2 <= |f|
    ensures at <= i <= |f| - 2
    ensures i != at <==> f[at] == 0x81 && f[at + 1] == 0x00 && at + 6 <= |f|
    ensures i == at || at + 4 <= i
    decreases |f| - at
  {
    if f[at] == 0x81 && f[at + 1] == 0x00 && at + 6 <= |f| then TypeOffset(f, at + 4) else at
  }

  /** Two bytes, the higher first. */
  function Word(f: Bytes, i: nat): uint16
    requires i + 2 <= |f|
  {
    f[i] as int * 256 + f[i + 1] as int
  }

  /** The VID of the last tag: the low twelve bits before the type field that follows it. */
  function VidOf(f: Bytes): uint16
    requires HasTag(f)
  {
    Word(f, TypeOffset(f, 12) - 2) % 4096
  }

  lemma {:induction false} DecodeTagsAt(f: Bytes, at: nat, v: View)
    requires at + 2 <= |f| && v.innerType == Word(f, at) && v.payload == f[at + 2..]
    ensures var i := TypeOffset(f, at);
            DecodeTags(v) == View(v.dst, v.src, if i == at then v.tag else Some(Word(f, i - 2) % 4096), Word(f, i), f[i + 2..])
    decreases |f| - at
  {
    if f[at] == 0x81 && f[at + 1] == 0x00 && at + 6 <= |f| {
      assert v.payload[TAG..] == f[at + 6..];
      var w := View(v.dst, v.src, Some(Word(f, at + 2) % 4096), Word(f, at + 4), f[at + 6..]);
      assert DecodeTags(v) == DecodeTags(w);
      DecodeTagsAt(f, at + 4, w);
    }
  }

  /** What the decoder reads where: six bytes of destination, six of source, the tags,
      each announced by 81 00 and long enough, a type of two bytes, and the payload. */
  lemma DecodeBytes(f: Bytes)
    ensures Decode(f).Some? <==> 14 <= |f|
    ensures 14 <= |f| ==>
              var i := TypeOffset(f, 12);
              Decode(f).value == View(f[..6], f[6..12], if HasTag(f) then Some(VidOf(f)) else None, Word(f, i), f[i + 2..])
  {
    if 14 <= |f| {
      DecodeTagsAt(f, 12, View(f[..6], f[6..12], None, U16(f[12], f[13]), f[14..]));
    }
  }

  /** What the serializers write, byte for byte. */
  lemma BuiltBytes(dst: Mac, src: Mac, vid: uint16, innerType: uint16, payload: Bytes, minLen: nat)
    ensures BuildTagged(dst, src, vid, innerType, payload, minLen)
         == Pad(dst + src + [0x81, 0x00, vid / 256, vid % 256, innerType / 256, innerType % 256] + payload, minLen)
    ensures BuildUntagged(dst, src, innerType, payload, minLen)
         == Pad(dst + src + [innerType / 256, innerType % 256] + payload, minLen)
  {
    var six := [0x81, 0x00, vid / 256, vid % 256, innerType / 256, innerType % 256];
    assert PutU16(DOT1Q) + (PutU16(vid) + PutU16(innerType)) == six;
    Regroup(dst + src, PutU16(DOT1Q), PutU16(vid), PutU16(innerType), payload);
    assert dst + src + (PutU16(DOT1Q) + PutU16(vid)) + (PutU16(innerType) + payload) == dst + src + six + payload;
    assert PutU16(innerType) == [innerType / 256, innerType % 256];
  }

  /** A header in front of a type and payload taken from a frame. */
  lemma HeadAndTail(raw: Bytes, i: nat)
    requires 12 <= i && i + 2 <= |raw|
    ensures raw[..6] + raw[6..12] == raw[..12] && PutU16(Word(raw, i)) + raw[i + 2..] == raw[i..]
  {
    assert PutU16(Word(raw, i)) == [raw[i], raw[i + 1]];
  }

  lemma InsertTag(raw: Bytes, vid: uint16, minLen: nat)
    requires 14 <= |raw|
    ensures BuildTagged(raw[..6], raw[6..12], vid, Word(raw, 12), raw[14..], minLen)
         == Pad(raw[..12] + [0x81, 0x00, vid / 256, vid % 256] + raw[12..], minLen)
  {
    HeadAndTail(raw, 12);
    var t := [0x81, 0x00, vid / 256, vid % 256];
    assert PutU16(DOT1Q) + PutU16(vid) == t;
    Regroup(raw[..12], PutU16(DOT1Q), PutU16(vid), PutU16(Word(raw, 12)), raw[14..]);
  }

  lemma Regroup(a: Bytes, b: Bytes, c: Bytes, d: Bytes, e: Bytes)
    ensures a + b + c + d + e == a + (b + c) + (d + e)
  {
  }

  lemma CutTags(raw: Bytes, i: nat, minLen: nat)
    requires 12 <= i && i + 2 <= |raw|
    ensures BuildUntagged(raw[..6], raw[6..12], Word(raw, i), raw[i + 2..], minLen) == Pad(raw[..12] + raw[i..], minLen)
  {
    HeadAndTail(raw, i);
    Regroup(raw[..12], PutU16(Word(raw, i)), [], [], raw[i + 2..]);
    assert raw[..12] + PutU16(Word(raw, i)) + raw[i + 2..] == raw[..12] + (PutU16(Word(raw, i)) + raw[i + 2..]);
  }

  /** The frame that must leave, byte for byte: unchanged if its tag state is wanted;
      otherwise a tag is inserted after the addresses, with the VID and nothing else, or all
      tags are cut out, and zeros fill the frame up. */
  function Rewritten(wantsTag: bool, raw: Bytes, vid: uint16, minLen: nat): Bytes
    requires 14 <= |raw|
  {
    if wantsTag == HasTag(raw) then raw
    else if wantsTag then Pad(raw[..12] + [0x81, 0x00, vid / 256, vid % 256] + raw[12..], minLen)
    else Pad(raw[..12] + raw[TypeOffset(raw, 12)..], minLen)
  }

  lemma EgressBytes(wantsTag: bool, raw: Bytes, v: View, vid: uint16, minLen: nat)
    requires Decode(raw) == Some(v)
    ensures 14 <= |raw| && Egress(wantsTag, v, raw, vid, minLen) == Rewritten(wantsTag, raw, vid, minLen)
    ensures Egress(wantsTag, v, raw, vid, minLen) == raw <==> wantsTag == HasTag(raw)
  {
    DecodeBytes(raw);
    if wantsTag && !HasTag(raw) {
      InsertTag(raw, vid, minLen);
    } else if !wantsTag && HasTag(raw) {
      CutTags(raw, TypeOffset(raw, 12), minLen);
      VerbatimIffUntagged(raw, v, vid, minLen);
    }
  }

  // ---- any number of hops ----

  /** What one hop does to a frame. */
  datatype Hop = Verbatim | Tagged(vid: uint16) | Untagged

  function Rewrite(hop: Hop, f: Bytes, minLen: nat): Bytes {
    match (hop, Decode(f))
    case (Tagged(vid), Some(v)) => BuildTagged(v.dst, v.src, vid, v.innerType, v.payload, minLen)
    case (Untagged, Some(v)) => BuildUntagged(v.dst, v.src, v.innerType, v.payload, minLen)
    case _ => f
  }

  function RewriteAll(hops: seq<Hop>, f: Bytes, minLen: nat): Bytes {
    if hops == [] then f else RewriteAll(hops[1..], Rewrite(hops[0], f, minLen), minLen)
  }

  /** The tag after the hops: that of the last hop that rewrites it. */
  function TagAfter(hops: seq<Hop>, tag: Option<uint16>): Option<uint16> {
    if hops == [] then tag
    else TagAfter(hops[1..], match hops[0]
                             case Verbatim => tag
                             case Tagged(vid) => Some(vid)
                             case Untagged => None)
  }

  /** Each egress is one of the hops. */
  lemma EgressIsHop(wantsTag: bool, raw: Bytes, v: View, vid: uint16, minLen: nat) returns (hop: Hop)
    requires Decode(raw) == Some(v)
    ensures Egress(wantsTag, v, raw, vid, minLen) == Rewrite(hop, raw, minLen)
    ensures hop.Tagged? ==> hop.vid == vid
  {
    hop := if wantsTag == v.tag.Some? then Verbatim else if wantsTag then Tagged(vid) else Untagged;
  }

  /** Through any number of hops a frame keeps its content; the padding never exceeds
      the minimum frame, however many hops pad it. */
  lemma {:induction false} HopsPreserveContent(hops: seq<Hop>, f: Bytes, v: View, minLen: nat)
    requires Decode(f) == Some(v) && v.innerType != DOT1Q
    requires forall h :: h in hops && h.Tagged? ==> h.vid < 0x1000
    ensures var d := Decode(RewriteAll(hops, f, minLen));
            d.Some? && SameContent(v, d.value, minLen) && d.value.tag == TagAfter(hops, v.tag)
  {
    if hops != [] {
      var g := Rewrite(hops[0], f, minLen);
      assert hops[0] in hops;
      match hops[0] {
        case Verbatim =>
        case Tagged(vid) => DecodeTagged(v.dst, v.src, vid, v.innerType, v.payload, minLen);
        case Untagged => DecodeUntagged(v.dst, v.src, v.innerType, v.payload, minLen);
      }
      var w := Decode(g).value;
      assert SameContent(v, w, minLen);
      HopsPreserveContent(hops[1..], g, w, minLen);
      ContentTransitive(v, w, Decode(RewriteAll(hops[1..], g, minLen)).value, minLen);
    }
  }

  lemma ContentTransitive(u: View, v: View, w: View, minLen: nat)
    requires SameContent(u, v, minLen) && SameContent(v, w, minLen)
    ensures SameContent(u, w, minLen)
  {
    forall i | |u.payload| <= i < |w.payload|
      ensures w.payload[i] == 0
    {
      if i < |v.payload| {
        assert w.payload[i] == v.payload[i];
      }
    }
  }
}
