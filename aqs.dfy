/**
 * The CoreAudio (AudioQueue Services) back end of the audio engine: how the hardware's
 * channel count and channel layout become the engine's channel set and output channel
 * map, the period and buffer sizes, and the flag-level decisions of the output callback,
 * of the retrace break and of teardown.
 *
 * CoreAudio's constants are the values of Apple's CoreAudioTypes.h: channel labels,
 * channel-bitmap bits and layout tags. The queue itself, its threads and its waiting are
 * not modelled; what the operating system answers is a parameter.
 */
module Aqs {
  import opened Wrappers

  // ---------------------------------------------------------------------------
  // Channels and channel sets

  /** boo's output channel positions. */
  datatype AudioChannel =
    FrontLeft | FrontRight | RearLeft | RearRight | FrontCenter | LFE | SideLeft | SideRight | Unknown

  /** boo's speaker configurations. */
  datatype AudioChannelSet = Stereo | Quad | Surround51 | Surround71 | UnknownSet

  // CoreAudio channel labels (AudioChannelLabel).
  const LabelLeft: nat := 1
  const LabelRight: nat := 2
  const LabelCenter: nat := 3
  const LabelLFEScreen: nat := 4
  const LabelLeftSurround: nat := 5
  const LabelRightSurround: nat := 6
  const LabelLeftSurroundDirect: nat := 10
  const LabelRightSurroundDirect: nat := 11

  /** The labels the mapping knows, in the order of the channel bitmap's bits. */
  const KnownLabels: seq<nat> := [LabelLeft, LabelRight, LabelCenter, LabelLFEScreen,
                                  LabelLeftSurround, LabelRightSurround,
                                  LabelLeftSurroundDirect, LabelRightSurroundDirect]

  // CoreAudio channel bitmap bits (AudioChannelBitmap): bit k is 1 << k.
  const BitLeft: bv32 := 0x1
  const BitRight: bv32 := 0x2
  const BitCenter: bv32 := 0x4
  const BitLFEScreen: bv32 := 0x8
  const BitLeftSurround: bv32 := 0x10
  const BitRightSurround: bv32 := 0x20
  const BitLeftSurroundDirect: bv32 := 0x200
  const BitRightSurroundDirect: bv32 := 0x400

  /** The bits the decoder tests, each with the channel it appends, in testing order. */
  const BitmapOrder: seq<(bv32, AudioChannel)> :=
    [(BitLeft, FrontLeft), (BitRight, FrontRight), (BitCenter, FrontCenter), (BitLFEScreen, LFE),
     (BitLeftSurround, RearLeft), (BitRightSurround, RearRight),
     (BitLeftSurroundDirect, SideLeft), (BitRightSurroundDirect, SideRight)]

  /** The union of the bits the decoder tests. */
  const KnownBits: bv32 := BitLeft | BitRight | BitCenter | BitLFEScreen | BitLeftSurround
                           | BitRightSurround | BitLeftSurroundDirect | BitRightSurroundDirect

  // CoreAudio layout tags (AudioChannelLayoutTag): (number << 16) | channel count.
  const TagUseChannelDescriptions: nat := 0
  const TagUseChannelBitmap: nat := 1 * 0x10000
  const TagStereo: nat := 101 * 0x10000 + 2
  const TagStereoHeadphones: nat := 102 * 0x10000 + 2
  const TagQuadraphonic: nat := 108 * 0x10000 + 4
  const TagPentagonal: nat := 109 * 0x10000 + 5

  /** What the queue reports as its channel layout: the tag, the bitmap and the labels
      of the channel descriptions. */
  datatype ChannelLayout = ChannelLayout(tag: nat, bitmap: bv32, labels: seq<nat>)

  // ---------------------------------------------------------------------------
  // Label mapping

  /** AQSChannelToBooChannel as written: LeftSurroundDirect falls on RearLeft, the
      channel LeftSurround already names. */
  function ChannelFromLabelAsWritten(code: nat): (r: AudioChannel)
    ensures r == Unknown <==> code !in KnownLabels
  {
    if code == LabelLeft then FrontLeft
    else if code == LabelRight then FrontRight
    else if code == LabelLeftSurround then RearLeft
    else if code == LabelRightSurround then RearRight
    else if code == LabelCenter then FrontCenter
    else if code == LabelLFEScreen then LFE
    else if code == LabelLeftSurroundDirect then RearLeft
    else if code == LabelRightSurroundDirect then SideRight
    else Unknown
  }

  /** Two different labels of a layout alias one output channel under the mapping as
      written. */
  lemma LeftSurroundDirectAliasesAsWritten()
    ensures LabelLeftSurround != LabelLeftSurroundDirect
    ensures ChannelFromLabelAsWritten(LabelLeftSurroundDirect) == ChannelFromLabelAsWritten(LabelLeftSurround)
    ensures ChannelFromLabelAsWritten(LabelLeftSurroundDirect) != BitmapOrder[6].1
  {
  }

  /** The label mapping with LeftSurroundDirect on SideLeft, as the bitmap decoder has it;
      every unlisted label is Unknown. */
  function ChannelFromLabel(code: nat): (r: AudioChannel)
    ensures r == Unknown <==> code !in KnownLabels
  {
    if code == LabelLeft then FrontLeft
    else if code == LabelRight then FrontRight
    else if code == LabelLeftSurround then RearLeft
    else if code == LabelRightSurround then RearRight
    else if code == LabelCenter then FrontCenter
    else if code == LabelLFEScreen then LFE
    else if code == LabelLeftSurroundDirect then SideLeft
    else if code == LabelRightSurroundDirect then SideRight
    else Unknown
  }

  /** The corrected mapping sends the i-th known label to the channel of the i-th
      bitmap bit, so the two ways of describing a layout agree. */
  lemma LabelsAgreeWithBitmap(i: nat)
    requires i < |KnownLabels|
    ensures ChannelFromLabel(KnownLabels[i]) == BitmapOrder[i].1
  {
  }

  /** No two known labels share an output channel. */
  lemma ChannelFromLabelInjective(a: nat, b: nat)
    requires a in KnownLabels && b in KnownLabels && a != b
    ensures ChannelFromLabel(a) != ChannelFromLabel(b)
  {
  }

  /** The two tables differ at LeftSurroundDirect only. */
  lemma AsWrittenDiffersOnlyAtLeftSurroundDirect(code: nat)
    ensures code != LabelLeftSurroundDirect ==> ChannelFromLabelAsWritten(code) == ChannelFromLabel(code)
    ensures code == LabelLeftSurroundDirect ==>
      ChannelFromLabelAsWritten(code) == RearLeft && ChannelFromLabel(code) == SideLeft
  {
  }

  // ---------------------------------------------------------------------------
  // Available channel set

  /** The number of channels each set names. */
  function ChannelsOf(s: AudioChannelSet): nat
  {
    match s
    case Stereo => 2
    case Quad => 4
    case Surround51 => 6
    case Surround71 => 8
    case UnknownSet => 0
  }

  /** _getAvailableSet: `hwChannels` is the device's channel count, or None when the
      probe queue could not be created or the count could not be read. */
  function AvailableSet(hwChannels: Option<nat>): (r: AudioChannelSet)
    ensures r != UnknownSet ==> hwChannels.Some? && ChannelsOf(r) == hwChannels.value
  {
    match hwChannels
    case None => UnknownSet
    case Some(n) =>
      if n == 2 then Stereo
      else if n == 4 then Quad
      else if n == 6 then Surround51
      else if n == 8 then Surround71
      else UnknownSet
  }

  /** A known set is returned exactly for a successful probe whose count that set has;
      every other count and every failed probe give the unknown set. */
  lemma AvailableSetMatchesCount(hwChannels: Option<nat>)
    ensures AvailableSet(hwChannels) != UnknownSet <==> hwChannels.Some? && hwChannels.value in {2, 4, 6, 8}
    ensures AvailableSet(hwChannels) != UnknownSet ==> ChannelsOf(AvailableSet(hwChannels)) == hwChannels.value
  {
  }

  // ---------------------------------------------------------------------------
  // Channel-bitmap decoding

  /** Whether `bit` is set in `bitmap`. */
  function Has(bitmap: bv32, bit: bv32): bool
  {
    bitmap & bit != 0
  }

  /** The channel of one table entry when its bit is set. */
  function Pick(entry: (bv32, AudioChannel), bitmap: bv32): seq<AudioChannel>
  {
    if Has(bitmap, entry.0) then [entry.1] else []
  }

  /** The channels of the table entries whose bit is set, in table order. */
  function DecodeWith(table: seq<(bv32, AudioChannel)>, bitmap: bv32): (r: seq<AudioChannel>)
    ensures |r| <= |table|
  {
    if table == [] then [] else Pick(table[0], bitmap) + DecodeWith(table[1..], bitmap)
  }

  /** The bitmap branch of the channel-map construction. */
  function DecodeBitmap(bitmap: bv32): (r: seq<AudioChannel>)
    ensures |r| <= 8
  {
    DecodeWith(BitmapOrder, bitmap)
  }

  /** The number of table entries whose bit is set. */
  function SetCount(table: seq<(bv32, AudioChannel)>, bitmap: bv32): nat
  {
    if table == [] then 0
    else (if Has(bitmap, table[0].0) then 1 else 0) + SetCount(table[1..], bitmap)
  }

  lemma {:induction false} DecodeWithCount(table: seq<(bv32, AudioChannel)>, bitmap: bv32)
    ensures |DecodeWith(table, bitmap)| == SetCount(table, bitmap)
    decreases |table|
  {
    if table != [] {
      DecodeWithCount(table[1..], bitmap);
    }
  }

  /** A channel is decoded exactly when some entry naming it has its bit set. */
  lemma {:induction false} DecodeWithMembers(table: seq<(bv32, AudioChannel)>, bitmap: bv32, c: AudioChannel)
    ensures c in DecodeWith(table, bitmap) <==> exists i | 0 <= i < |table| :: table[i].1 == c && Has(bitmap, table[i].0)
    decreases |table|
  {
    if table != [] {
      var rest := table[1..];
      DecodeWithMembers(rest, bitmap, c);
      assert DecodeWith(table, bitmap) == Pick(table[0], bitmap) + DecodeWith(rest, bitmap);
      if c in DecodeWith(rest, bitmap) {
        var i :| 0 <= i < |rest| && rest[i].1 == c && Has(bitmap, rest[i].0);
        assert table[i + 1] == rest[i];
      }
      if exists i | 0 <= i < |table| :: table[i].1 == c && Has(bitmap, table[i].0) {
        var i :| 0 <= i < |table| && table[i].1 == c && Has(bitmap, table[i].0);
        if i > 0 {
          assert rest[i - 1] == table[i];
        }
      }
    }
  }

  /** No channel occurs twice. */
  ghost predicate Distinct(s: seq<AudioChannel>)
  {
    forall i, j | 0 <= i < j < |s| :: s[i] != s[j]
  }

  /** The channels of a table whose channels are distinct come out distinct. */
  lemma {:induction false} DecodeWithDistinct(table: seq<(bv32, AudioChannel)>, bitmap: bv32)
    requires forall i, j | 0 <= i < j < |table| :: table[i].1 != table[j].1
    ensures Distinct(DecodeWith(table, bitmap))
    decreases |table|
  {
    if table != [] {
      var tail := table[1..];
      var rest := DecodeWith(tail, bitmap);
      assert forall i, j | 0 <= i < j < |tail| :: tail[i].1 != tail[j].1 by {
        forall i, j | 0 <= i < j < |tail|
          ensures tail[i].1 != tail[j].1
        {
          assert tail[i] == table[i + 1] && tail[j] == table[j + 1];
        }
      }
      DecodeWithDistinct(tail, bitmap);
      var r := DecodeWith(table, bitmap);
      assert r == Pick(table[0], bitmap) + rest;
      if Has(bitmap, table[0].0) {
        DecodeWithMembers(tail, bitmap, table[0].1);
        forall k | 0 <= k < |tail|
          ensures tail[k].1 != table[0].1
        {
          assert tail[k] == table[k + 1];
        }
        assert table[0].1 !in rest;
        forall i, j | 0 <= i < j < |r|
          ensures r[i] != r[j]
        {
          if i == 0 {
            assert r[j] == rest[j - 1];
          } else {
            assert r[i] == rest[i - 1] && r[j] == rest[j - 1];
          }
        }
      } else {
        assert r == rest;
        assert Distinct(rest);
      }
    }
  }

  /** Whether every bit of `bit` is also in `mask`. */
  function Within(bit: bv32, mask: bv32): bool
  {
    bit & mask == bit
  }

  /** Clearing bits outside the tested bit does not change the test. */
  lemma HasMasked(bitmap: bv32, bit: bv32, mask: bv32)
    requires Within(bit, mask)
    ensures Has(bitmap & mask, bit) == Has(bitmap, bit)
  {
  }

  /** Only the tested bits matter: the others leave the decoded channels unchanged. */
  lemma {:induction false} DecodeWithMasked(table: seq<(bv32, AudioChannel)>, bitmap: bv32, mask: bv32)
    requires forall i | 0 <= i < |table| :: Within(table[i].0, mask)
    ensures DecodeWith(table, bitmap & mask) == DecodeWith(table, bitmap)
    decreases |table|
  {
    if table != [] {
      var tail := table[1..];
      assert forall i | 0 <= i < |tail| :: Within(tail[i].0, mask) by {
        forall i | 0 <= i < |tail|
          ensures Within(tail[i].0, mask)
        {
          assert tail[i] == table[i + 1];
        }
      }
      DecodeWithMasked(tail, bitmap, mask);
      HasMasked(bitmap, table[0].0, mask);
    }
  }

  /** Every tested bit lies inside KnownBits. */
  lemma BitmapOrderInKnownBits()
    ensures forall i | 0 <= i < |BitmapOrder| :: Within(BitmapOrder[i].0, KnownBits)
  {
  }

  /** The decoded map has one entry per set bit among the eight tested, so at most eight,
      no channel twice, each channel exactly when its bit is set, and bits outside the
      eight are ignored. */
  lemma DecodeBitmapProperties(bitmap: bv32)
    ensures |DecodeBitmap(bitmap)| == SetCount(BitmapOrder, bitmap) <= 8
    ensures Distinct(DecodeBitmap(bitmap))
    ensures forall i | 0 <= i < |BitmapOrder| ::
              BitmapOrder[i].1 in DecodeBitmap(bitmap) <==> Has(bitmap, BitmapOrder[i].0)
    ensures DecodeBitmap(bitmap & KnownBits) == DecodeBitmap(bitmap)
  {
    DecodeWithCount(BitmapOrder, bitmap);
    DecodeWithDistinct(BitmapOrder, bitmap);
    forall i | 0 <= i < |BitmapOrder|
      ensures BitmapOrder[i].1 in DecodeBitmap(bitmap) <==> Has(bitmap, BitmapOrder[i].0)
    {
      DecodeWithMembers(BitmapOrder, bitmap, BitmapOrder[i].1);
    }
    BitmapOrderInKnownBits();
    DecodeWithMasked(BitmapOrder, bitmap, KnownBits);
  }

  /** Decoding distributes over joining tables. */
  lemma {:induction false} DecodeWithAppend(p: seq<(bv32, AudioChannel)>, q: seq<(bv32, AudioChannel)>, bitmap: bv32)
    ensures DecodeWith(p + q, bitmap) == DecodeWith(p, bitmap) + DecodeWith(q, bitmap)
    decreases |p|
  {
    if p == [] {
      assert p + q == q;
    } else {
      assert (p + q)[0] == p[0] && (p + q)[1..] == p[1..] + q;
      DecodeWithAppend(p[1..], q, bitmap);
      assert DecodeWith(p + q, bitmap) == Pick(p[0], bitmap) + (DecodeWith(p[1..], bitmap) + DecodeWith(q, bitmap));
    }
  }

  /** A one-entry table decodes to that entry's pick. */
  lemma DecodeWithSingle(e: (bv32, AudioChannel), bitmap: bv32)
    ensures DecodeWith([e], bitmap) == Pick(e, bitmap)
  {
    assert [e][1..] == [];
  }

  /** Testing the eight bits one after another, as the constructor does, builds the
      decoded map. */
  lemma DecodeBitmapUnrolled(b: bv32)
    ensures DecodeBitmap(b) ==
      Pick((BitLeft, FrontLeft), b) + Pick((BitRight, FrontRight), b)
      + Pick((BitCenter, FrontCenter), b) + Pick((BitLFEScreen, LFE), b)
      + Pick((BitLeftSurround, RearLeft), b) + Pick((BitRightSurround, RearRight), b)
      + Pick((BitLeftSurroundDirect, SideLeft), b) + Pick((BitRightSurroundDirect, SideRight), b)
  {
    var t := BitmapOrder;
    var e0, e1, e2, e3 := t[0], t[1], t[2], t[3];
    var e4, e5, e6, e7 := t[4], t[5], t[6], t[7];
    assert t == [e0] + [e1] + [e2] + [e3] + [e4] + [e5] + [e6] + [e7];
    DecodeWithAppend([e0] + [e1] + [e2] + [e3] + [e4] + [e5] + [e6], [e7], b);
    DecodeWithAppend([e0] + [e1] + [e2] + [e3] + [e4] + [e5], [e6], b);
    DecodeWithAppend([e0] + [e1] + [e2] + [e3] + [e4], [e5], b);
    DecodeWithAppend([e0] + [e1] + [e2] + [e3], [e4], b);
    DecodeWithAppend([e0] + [e1] + [e2], [e3], b);
    DecodeWithAppend([e0] + [e1], [e2], b);
    DecodeWithAppend([e0], [e1], b);
    DecodeWithSingle(e0, b);
    DecodeWithSingle(e1, b);
    DecodeWithSingle(e2, b);
    DecodeWithSingle(e3, b);
    DecodeWithSingle(e4, b);
    DecodeWithSingle(e5, b);
    DecodeWithSingle(e6, b);
    DecodeWithSingle(e7, b);
  }

  // ---------------------------------------------------------------------------
  // Channel map

  /** The fixed layouts of the known tags, and stereo for any other tag. */
  function TagLayout(tag: nat): (r: seq<AudioChannel>)
    ensures 2 <= |r| <= 5 && r[..2] == [FrontLeft, FrontRight]
  {
    if tag == TagQuadraphonic then [FrontLeft, FrontRight, RearLeft, RearRight]
    else if tag == TagPentagonal then [FrontLeft, FrontRight, RearLeft, RearRight, FrontCenter]
    else [FrontLeft, FrontRight]
  }

  /** The channel of each channel description's label, in order, through the label
      table as the constructor uses it. */
  function Labelled(labels: seq<nat>): (r: seq<AudioChannel>)
    ensures |r| == |labels| && forall k | 0 <= k < |labels| :: r[k] == ChannelFromLabelAsWritten(labels[k])
  {
    seq(|labels|, k requires 0 <= k < |labels| => ChannelFromLabelAsWritten(labels[k]))
  }

  /** The channels the layout names before padding; None when the layout could not be
      read for a device with more than two channels. */
  function LayoutChannels(chCount: nat, layout: Option<ChannelLayout>): (r: Option<seq<AudioChannel>>)
    ensures r.None? <==> chCount > 2 && layout.None?
    ensures r.Some? && layout.Some? && layout.value.tag == TagUseChannelBitmap ==> |r.value| <= 8
  {
    if chCount <= 2 then Some([FrontLeft, FrontRight])
    else match layout
      case None => None
      case Some(l) =>
        if l.tag == TagUseChannelDescriptions then Some(Labelled(l.labels))
        else if l.tag == TagUseChannelBitmap then Some(DecodeBitmap(l.bitmap))
        else Some(TagLayout(l.tag))
  }

  /** `channels` filled up with Unknown to at least `count` entries. */
  function Padded(channels: seq<AudioChannel>, count: nat): (r: seq<AudioChannel>)
    ensures count <= |r| && |channels| <= |r|
  {
    if |channels| < count then channels + seq(count - |channels|, _ => Unknown) else channels
  }

  /** Padding reaches the device's channel count, keeps the entries it found and adds only
      Unknown, and adds nothing to a map that is long enough already. */
  lemma PaddedProperties(channels: seq<AudioChannel>, count: nat)
    ensures var r := Padded(channels, count);
      && |r| == (if |channels| < count then count else |channels|)
      && r[..|channels|] == channels
      && (forall i | |channels| <= i < |r| :: r[i] == Unknown)
  {
  }

  /** The output channel map the constructor builds. */
  function ChannelMap(chCount: nat, layout: Option<ChannelLayout>): (r: Option<seq<AudioChannel>>)
    ensures r.Some? ==> chCount <= |r.value|
  {
    match LayoutChannels(chCount, layout)
    case None => None
    case Some(c) => Some(Padded(c, chCount))
  }

  /** The fixed tags and small devices: stereo for two channels or fewer and for every
      tag the constructor does not know. */
  lemma ChannelMapFixedLayouts(chCount: nat, l: ChannelLayout)
    requires l.tag != TagUseChannelDescriptions && l.tag != TagUseChannelBitmap
    ensures chCount <= 2 ==> ChannelMap(chCount, Some(l)) == Some([FrontLeft, FrontRight])
    ensures chCount > 2 && (l.tag == TagStereo || l.tag == TagStereoHeadphones) ==>
      ChannelMap(chCount, Some(l)) == Some(Padded([FrontLeft, FrontRight], chCount))
    ensures chCount > 2 && l.tag == TagQuadraphonic ==>
      ChannelMap(chCount, Some(l)) == Some(Padded([FrontLeft, FrontRight, RearLeft, RearRight], chCount))
    ensures chCount > 2 && l.tag == TagPentagonal ==>
      ChannelMap(chCount, Some(l)) == Some(Padded([FrontLeft, FrontRight, RearLeft, RearRight, FrontCenter], chCount))
    ensures chCount > 2 && l.tag !in {TagStereo, TagStereoHeadphones, TagQuadraphonic, TagPentagonal} ==>
      ChannelMap(chCount, Some(l)) == Some(Padded([FrontLeft, FrontRight], chCount))
  {
  }

  /** A successful map has at least `chCount` channels and starts with the channels the
      layout named; the layout is needed only for more than two channels. */
  lemma ChannelMapCovers(chCount: nat, layout: Option<ChannelLayout>)
    ensures ChannelMap(chCount, layout).None? <==> chCount > 2 && layout.None?
    ensures ChannelMap(chCount, layout).Some? ==>
      var c := LayoutChannels(chCount, layout).value;
      var m := ChannelMap(chCount, layout).value;
      && chCount <= |m| && m[..|c|] == c
      && (forall i | |c| <= i < |m| :: m[i] == Unknown)
      && (|c| <= chCount ==> |m| == chCount)
  {
    if ChannelMap(chCount, layout).Some? {
      PaddedProperties(LayoutChannels(chCount, layout).value, chCount);
    }
  }

  /** As written, a six-channel device described by the labels L, R, C, LFE, Ls and
      LsDirect gets RearLeft twice and no SideLeft. */
  lemma DescribedLayoutAliasesAsWritten()
    ensures ChannelMap(6, Some(ChannelLayout(TagUseChannelDescriptions, 0, [1, 2, 3, 4, 5, 10])))
         == Some([FrontLeft, FrontRight, FrontCenter, LFE, RearLeft, RearLeft])
  {
    var labels: seq<nat> := [1, 2, 3, 4, 5, 10];
    var c := Labelled(labels);
    assert c[0] == FrontLeft && c[1] == FrontRight && c[2] == FrontCenter;
    assert c[3] == LFE && c[4] == RearLeft && c[5] == RearLeft;
    assert c == [FrontLeft, FrontRight, FrontCenter, LFE, RearLeft, RearLeft];
  }

  /** The bitmap branch of the constructor: the eight bits are tested in order and each
      set one appends its channel. */
  method DecodeBitmapBits(b: bv32) returns (channels: seq<AudioChannel>)
    ensures channels == DecodeBitmap(b)
  {
    channels := [];
    if Has(b, BitLeft) { channels := channels + [FrontLeft]; }
    assert channels == Pick((BitLeft, FrontLeft), b);
    ghost var seen := channels;
    if Has(b, BitRight) { channels := channels + [FrontRight]; }
    assert channels == seen + Pick((BitRight, FrontRight), b);
    seen := channels;
    if Has(b, BitCenter) { channels := channels + [FrontCenter]; }
    assert channels == seen + Pick((BitCenter, FrontCenter), b);
    seen := channels;
    if Has(b, BitLFEScreen) { channels := channels + [LFE]; }
    assert channels == seen + Pick((BitLFEScreen, LFE), b);
    seen := channels;
    if Has(b, BitLeftSurround) { channels := channels + [RearLeft]; }
    assert channels == seen + Pick((BitLeftSurround, RearLeft), b);
    seen := channels;
    if Has(b, BitRightSurround) { channels := channels + [RearRight]; }
    assert channels == seen + Pick((BitRightSurround, RearRight), b);
    seen := channels;
    if Has(b, BitLeftSurroundDirect) { channels := channels + [SideLeft]; }
    assert channels == seen + Pick((BitLeftSurroundDirect, SideLeft), b);
    seen := channels;
    if Has(b, BitRightSurroundDirect) { channels := channels + [SideRight]; }
    assert channels == seen + Pick((BitRightSurroundDirect, SideRight), b);
    DecodeBitmapUnrolled(b);
  }

  /** The padding loop: Unknown entries are appended until the map is `count` wide. */
  method PadChannels(named: seq<AudioChannel>, count: nat) returns (channels: seq<AudioChannel>)
    ensures channels == Padded(named, count)
  {
    channels := named;
    while |channels| < count
      invariant |named| <= |channels|
      invariant channels[..|named|] == named
      invariant forall k | |named| <= k < |channels| :: channels[k] == Unknown
      invariant |named| < count ==> |channels| <= count
      invariant count <= |named| ==> channels == named
      decreases count - |channels|
    {
      channels := channels + [Unknown];
    }
    PaddedProperties(named, count);
    ghost var padded := Padded(named, count);
    forall k | 0 <= k < |channels|
      ensures channels[k] == padded[k]
    {
      if k < |named| {
        assert channels[k] == channels[..|named|][k] && padded[k] == padded[..|named|][k];
      }
    }
  }

  /** The channel-map construction of the engine's constructor: the descriptions are
      mapped one by one, or the bitmap decoded, or a fixed layout taken, and the map is
      then padded with Unknown up to the device's channel count. None stands for the
      failed layout query, after which the constructor gives up. */
  method BuildChannelMap(chCount: nat, layout: Option<ChannelLayout>) returns (r: Option<seq<AudioChannel>>)
    ensures r == ChannelMap(chCount, layout)
  {
    var channels: seq<AudioChannel> := [];
    if chCount > 2 {
      if layout.None? {
        return None;
      }
      var l := layout.value;
      if l.tag == TagUseChannelDescriptions {
        for i := 0 to |l.labels|
          invariant |channels| == i
          invariant forall k | 0 <= k < i :: channels[k] == ChannelFromLabelAsWritten(l.labels[k])
        {
          channels := channels + [ChannelFromLabelAsWritten(l.labels[i])];
        }
        assert channels == Labelled(l.labels);
      } else if l.tag == TagUseChannelBitmap {
        channels := DecodeBitmapBits(l.bitmap);
      } else if l.tag == TagStereo || l.tag == TagStereoHeadphones {
        channels := [FrontLeft, FrontRight];
      } else if l.tag == TagQuadraphonic {
        channels := [FrontLeft, FrontRight, RearLeft, RearRight];
      } else if l.tag == TagPentagonal {
        channels := [FrontLeft, FrontRight, RearLeft, RearRight, FrontCenter];
      } else {
        channels := [FrontLeft, FrontRight];
      }
    } else {
      channels := channels + [FrontLeft];
      channels := channels + [FrontRight];
      assert channels == [FrontLeft, FrontRight];
    }
    assert Some(channels) == LayoutChannels(chCount, layout);
    channels := PadChannels(channels, chCount);
    r := Some(channels);
  }

  // ---------------------------------------------------------------------------
  // Period and buffer sizes

  /** m_5msFrames: five milliseconds of frames, the product truncated toward zero. */
  function FiveMsFrames(sampleRate: real): (r: nat)
    requires 0.0 <= sampleRate
    ensures r as real <= sampleRate * 5.0 / 1000.0 < r as real + 1.0
  {
    (sampleRate * 5.0 / 1000.0).Floor
  }

  /** m_periodFrames: three five-millisecond slices. */
  function PeriodFrames(fiveMsFrames: nat): nat
  {
    fiveMsFrames * 3
  }

  /** m_frameBytes: one period of 32-bit float samples on every channel of the map. */
  function FrameBytes(periodFrames: nat, channelCount: nat): nat
  {
    periodFrames * channelCount * 4
  }

  /** The size each of the three queue buffers is allocated with: a period of 32-bit
      float samples on every channel of the device. */
  function BufferBytes(periodFrames: nat, chCount: nat): nat
  {
    periodFrames * chCount * 4
  }

  /** The bytes filled per callback fit the allocated buffers exactly when the channel map
      is no wider than the device. */
  lemma FrameBytesFit(periodFrames: nat, channelCount: nat, chCount: nat)
    requires periodFrames > 0
    ensures FrameBytes(periodFrames, channelCount) <= BufferBytes(periodFrames, chCount)
            <==> channelCount <= chCount
  {
    if channelCount > chCount {
      assert periodFrames * channelCount >= periodFrames * (chCount + 1) by {
        assert periodFrames * channelCount - periodFrames * (chCount + 1) == periodFrames * (channelCount - chCount - 1);
      }
    } else {
      assert periodFrames * chCount - periodFrames * channelCount == periodFrames * (chCount - channelCount);
    }
  }

  /** A layout that names no more channels than the device has gives a map exactly as
      wide as the device, so the filled bytes are the allocated bytes. */
  lemma FrameBytesOfNarrowLayout(chCount: nat, layout: Option<ChannelLayout>, periodFrames: nat)
    requires ChannelMap(chCount, layout).Some?
    requires |LayoutChannels(chCount, layout).value| <= chCount
    ensures FrameBytes(periodFrames, |ChannelMap(chCount, layout).value|) == BufferBytes(periodFrames, chCount)
  {
    ChannelMapCovers(chCount, layout);
  }

  /** A Pentagonal layout on a three- or four-channel device gives a five-channel map,
      so an engine built for it fills more bytes per period than its buffers hold
      whenever the period is not empty. */
  lemma PentagonalOnNarrowDevice(chCount: nat, periodFrames: nat)
    requires 3 <= chCount <= 4 && periodFrames > 0
    ensures var m := ChannelMap(chCount, Some(ChannelLayout(TagPentagonal, 0, [])));
      && m == Some([FrontLeft, FrontRight, RearLeft, RearRight, FrontCenter])
      && FrameBytes(periodFrames, |m.value|) > BufferBytes(periodFrames, chCount)
  {
    ChannelMapFixedLayouts(chCount, ChannelLayout(TagPentagonal, 0, []));
    PaddedProperties([FrontLeft, FrontRight, RearLeft, RearRight, FrontCenter], chCount);
    FrameBytesFit(periodFrames, 5, chCount);
  }

  // ---------------------------------------------------------------------------
  // The output callback

  /** What one callback does. */
  datatype CallbackAction =
    | Skip     // the engine is shutting down: nothing is touched
    | Silence  // no retrace came in time: a zeroed period is queued
    | Pump     // the voices are pumped into the buffer, which is queued

  /** The branch of Callback: `timedOut` is whether the wait for the client ran out and
      `retraceAfterWait` the retrace flag as seen when the wait ended. */
  function CallbackDecision(cbRunning: bool, inRetrace: bool, timedOut: bool, retraceAfterWait: bool)
    : (r: CallbackAction)
    ensures r == Skip <==> !cbRunning
    ensures r == Silence <==> cbRunning && !inRetrace && (timedOut || !retraceAfterWait)
    ensures r == Pump <==> cbRunning && (inRetrace || (!timedOut && retraceAfterWait))
  {
    if !cbRunning then Skip
    else if !inRetrace && (timedOut || !retraceAfterWait) then Silence
    else Pump
  }

  /** Once teardown has cleared the running flag, every callback is a no-op. */
  lemma CallbackAfterTeardown(inRetrace: bool, timedOut: bool, retraceAfterWait: bool)
    ensures CallbackDecision(false, inRetrace, timedOut, retraceAfterWait) == Skip
  {
  }

  /** A callback during a retrace pumps at once, whatever the wait would have done. */
  lemma CallbackInRetracePumps(timedOut: bool, retraceAfterWait: bool)
    ensures CallbackDecision(true, true, timedOut, retraceAfterWait) == Pump
  {
  }

  /** Calls the engine makes into the queue, the voice mixer and its condition variables. */
  datatype QueueEvent =
    | Enqueue(bytes: nat)
    | NotifyEnter
    | NotifyLeave
    | PumpVoices(frames: nat)
    | DisposeQueue(callbacksOn: bool)  // AudioQueueDispose, with m_cbRunning as it then is

  /** An AudioQueue buffer: its storage and the byte count to be played. */
  class QueueBuffer {
    const data: array<bv8>
    var byteSize: nat

    constructor (capacity: nat)
      ensures data.Length == capacity && fresh(data) && byteSize == 0
    {
      data := new bv8[capacity];
      byteSize := 0;
    }
  }

  /** The flags of AQSAudioVoiceEngine shared between the client and the queue's
      callback, with the channel map and the sizes the constructor computed. */
  class AqsEngine {
    const fiveMsFrames: nat
    const periodFrames: nat
    const channelMap: seq<AudioChannel>
    const frameBytes: nat
    /** The size the three queue buffers are allocated with. */
    const bufferBytes: nat
    /** Whether the constructor got as far as starting the queue: the layout query
        answered (when it was made) and the buffers were allocated. */
    const started: bool
    var inRetrace: bool
    var inCb: bool
    var cbRunning: bool
    /** The calls made so far. */
    ghost var calls: seq<QueueEvent>
    /** Every value written to m_inCb, in order. */
    ghost var inCbWrites: seq<bool>

    /** The engine starts outside a retrace and a callback, with callbacks enabled.
        `sampleRate` is the queue's native rate, `chCount` the device's channel count,
        `layout` the answer of the layout query and `allocFailed` whether a buffer
        allocation failed. The sizes are derived from them; when the constructor gives
        up early, no queue is started and the sizes are never used. */
    constructor (sampleRate: real, chCount: nat, layout: Option<ChannelLayout>, allocFailed: bool)
      requires 0.0 <= sampleRate
      ensures fiveMsFrames == FiveMsFrames(sampleRate)
      ensures periodFrames == PeriodFrames(fiveMsFrames)
      ensures started <==> ChannelMap(chCount, layout).Some? && !allocFailed
      ensures ChannelMap(chCount, layout).Some? ==> channelMap == ChannelMap(chCount, layout).value
      ensures frameBytes == FrameBytes(periodFrames, |channelMap|)
      ensures bufferBytes == BufferBytes(periodFrames, chCount)
      ensures started ==> (frameBytes <= bufferBytes <==> periodFrames == 0 || |channelMap| <= chCount)
      ensures started && |LayoutChannels(chCount, layout).value| <= chCount ==> frameBytes == bufferBytes
      ensures !inRetrace && !inCb && cbRunning && calls == [] && inCbWrites == []
    {
      var five := FiveMsFrames(sampleRate);
      var period := PeriodFrames(five);
      var built := BuildChannelMap(chCount, layout);
      var channels := if built.Some? then built.value else [];
      if built.Some? && period > 0 {
        FrameBytesFit(period, |channels|, chCount);
      }
      if built.Some? && |LayoutChannels(chCount, layout).value| <= chCount {
        FrameBytesOfNarrowLayout(chCount, layout, period);
      }
      fiveMsFrames := five;
      periodFrames := period;
      channelMap := channels;
      frameBytes := FrameBytes(period, |channels|);
      bufferBytes := BufferBytes(period, chCount);
      started := built.Some? && !allocFailed;
      inRetrace, inCb, cbRunning := false, false, true;
      calls, inCbWrites := [], [];
    }

    /** Callback: the queue hands back `buf` for refilling. A callback that runs sets
        m_inCb and clears it again on its way out; the silent path zeroes exactly
        `frameBytes` bytes. Callbacks come only from a started queue, with one of the
        buffers allocated at `bufferBytes`; the silent path's write stays inside it only
        when `frameBytes` fits (see the constructor). The voices' writes into the buffer
        are not modelled. */
    method Callback(buf: QueueBuffer, timedOut: bool, retraceAfterWait: bool)
      requires started && buf.data.Length == bufferBytes
      requires frameBytes <= buf.data.Length
      modifies this`inCb, this`calls, this`inCbWrites, buf`byteSize, buf.data
      ensures var action := CallbackDecision(old(cbRunning), old(inRetrace), timedOut, retraceAfterWait);
        match action
        case Skip =>
          && inCb == old(inCb) && calls == old(calls) && inCbWrites == old(inCbWrites)
          && buf.byteSize == old(buf.byteSize) && buf.data[..] == old(buf.data[..])
        case Silence =>
          && !inCb && inCbWrites == old(inCbWrites) + [true, false]
          && calls == old(calls) + [Enqueue(frameBytes), NotifyLeave]
          && buf.byteSize == frameBytes
          && (forall i | 0 <= i < frameBytes :: buf.data[i] == 0)
          && buf.data[frameBytes..] == old(buf.data[frameBytes..])
        case Pump =>
          && !inCb && inCbWrites == old(inCbWrites) + [true, false]
          && calls == old(calls) + [PumpVoices(periodFrames), Enqueue(frameBytes), NotifyLeave]
          && buf.byteSize == frameBytes
    {
      if !cbRunning {
        return;
      }
      inCb := true;
      inCbWrites := inCbWrites + [true];
      if !inRetrace {
        if timedOut || !retraceAfterWait {
          buf.byteSize := frameBytes;
          forall i | 0 <= i < frameBytes {
            buf.data[i] := 0;
          }
          calls := calls + [Enqueue(frameBytes), NotifyLeave];
          inCb := false;
          inCbWrites := inCbWrites + [false];
          return;
        }
      }
      calls := calls + [PumpVoices(periodFrames)];
      buf.byteSize := frameBytes;
      calls := calls + [Enqueue(frameBytes), NotifyLeave];
      inCb := false;
      inCbWrites := inCbWrites + [false];
    }

    /** _retraceBreak: the retrace ends, and whichever side is waiting is woken. */
    method RetraceBreak()
      modifies this`inRetrace, this`calls
      ensures !inRetrace
      ensures calls == old(calls) + [if inCb then NotifyEnter else NotifyLeave]
    {
      inRetrace := false;
      if inCb {
        calls := calls + [NotifyEnter];
      } else {
        calls := calls + [NotifyLeave];
      }
    }

    /** ~AQSAudioVoiceEngine: callbacks are switched off before the queue is disposed, so
        a callback the disposal still delivers changes nothing (CallbackAfterTeardown).
        The disposal records the running flag it sees. */
    method Teardown()
      modifies this`cbRunning, this`calls
      ensures !cbRunning
      ensures calls == old(calls) + (if inCb then [NotifyEnter] else []) + [DisposeQueue(false)]
    {
      cbRunning := false;
      if inCb {
        calls := calls + [NotifyEnter];
      }
      calls := calls + [DisposeQueue(cbRunning)];
    }
  }
}
