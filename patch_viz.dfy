/**
 * The per-capsule view of a reconstruction in the autoencoder's
 * visualisation script. The decoder emits the patch of capsule `j`
 * interleaved with the others: slot `m` of that patch is reconstruction
 * point `latent_caps_size * m + j`. The script gathers each capsule's patch
 * into a small buffer, paints it (one palette colour per capsule, or grey),
 * and appends it to one merged cloud, capsule by capsule.
 *
 * Points are abstract (`P`); a colour is a slot of the 20-colour palette,
 * the fixed grey, or no colour at all (the branch whose painting is
 * commented out).
 */
module PatchViz {
  import opened Results
  import Arith

  datatype Colour = Palette(slot: nat) | Grey | Unpainted

  datatype Painted<P> = Painted(point: P, colour: Colour)

  /** Reading a reconstruction point past its end raises IndexError. */
  datatype VizError = IndexOutOfRange

  /** What the script puts on screen: the merged clouds in order, then the exception that stopped it, if any. */
  datatype Display<P> = Display(shown: seq<seq<Painted<P>>>, failure: Option<VizError>)

  const PaletteSize: nat := 20

  /** The highlighted capsule list, `[0, 1, ..., 19]`. */
  const HighlightCaps: seq<int> := [0, 1, 2, 3, 4, 5, 6, 7, 8, 9, 10, 11, 12, 13, 14, 15, 16, 17, 18, 19]

  /** The number of slots per patch, `int(num_points / latent_caps_size)`. */
  function PatchLen(numPoints: nat, caps: nat): (slots: nat)
    requires caps > 0
    ensures caps * slots <= numPoints < caps * (slots + 1)
  {
    numPoints / caps
  }

  /** The reconstruction point that fills slot `m` of capsule `j`'s patch. */
  function SourceIndex(caps: nat, j: nat, m: nat): nat {
    caps * m + j
  }

  /** Every index the script reads lies below `caps * slots`, hence below `numPoints`. */
  lemma SourceIndexInRange(numPoints: nat, caps: nat, j: nat, m: nat)
    requires caps > 0 && j < caps && m < PatchLen(numPoints, caps)
    ensures SourceIndex(caps, j, m) < caps * PatchLen(numPoints, caps) <= numPoints
  {
    SourceIndexBelow(caps, PatchLen(numPoints, caps), j, m);
  }

  lemma SourceIndexBelow(caps: nat, slots: nat, j: nat, m: nat)
    requires j < caps && m < slots
    ensures SourceIndex(caps, j, m) < caps * slots
  {
    Arith.MulStep(m, slots, caps);
  }

  /** No reconstruction point lands in two slots. */
  lemma SourceIndexInjective(caps: nat, j1: nat, m1: nat, j2: nat, m2: nat)
    requires j1 < caps && j2 < caps
    requires SourceIndex(caps, j1, m1) == SourceIndex(caps, j2, m2)
    ensures j1 == j2 && m1 == m2
  {
    if m1 < m2 {
      Arith.MulStep(m1, m2, caps);
    } else if m2 < m1 {
      Arith.MulStep(m2, m1, caps);
    }
  }

  /**
   * Every point below `caps * slots` is read: point `i` fills slot
   * `i / caps` of capsule `i % caps`.
   */
  lemma SourceIndexCovers(caps: nat, slots: nat, i: nat)
    requires caps > 0 && i < caps * slots
    ensures i % caps < caps && i / caps < slots
    ensures SourceIndex(caps, i % caps, i / caps) == i
  {
    var q := i / caps;
    assert caps * q + i % caps == i;
    if q >= slots {
      Arith.MulMono(slots, q, caps);
    }
  }

  /**
   * When `caps` divides `numPoints`, the patches split the reconstruction:
   * every point is in exactly one slot of exactly one patch.
   */
  lemma PatchesPartitionPoints(numPoints: nat, caps: nat)
    requires caps > 0 && numPoints % caps == 0
    ensures caps * PatchLen(numPoints, caps) == numPoints
    ensures forall i :: 0 <= i < numPoints ==>
      i % caps < caps && i / caps < PatchLen(numPoints, caps) && SourceIndex(caps, i % caps, i / caps) == i
    ensures forall j1: nat, m1: nat, j2: nat, m2: nat ::
      j1 < caps && j2 < caps && SourceIndex(caps, j1, m1) == SourceIndex(caps, j2, m2) ==> j1 == j2 && m1 == m2
  {
    var slots := PatchLen(numPoints, caps);
    assert caps * slots == numPoints;
    forall i | 0 <= i < numPoints
      ensures i % caps < caps && i / caps < slots && SourceIndex(caps, i % caps, i / caps) == i
    {
      SourceIndexCovers(caps, slots, i);
    }
    forall j1: nat, m1: nat, j2: nat, m2: nat |
      j1 < caps && j2 < caps && SourceIndex(caps, j1, m1) == SourceIndex(caps, j2, m2)
      ensures j1 == j2 && m1 == m2
    {
      SourceIndexInjective(caps, j1, m1, j2, m2);
    }
  }

  /** How many capsules before `j` are highlighted (the counter `jc` when capsule `j` is painted). */
  function HighlightedBefore(highlight: seq<int>, j: nat): nat {
    if j == 0 then 0
    else HighlightedBefore(highlight, j - 1) + if (j - 1) % PaletteSize in highlight then 1 else 0
  }

  /**
   * The colour of capsule `j`: a highlighted capsule takes the palette
   * colour after those of the highlighted capsules before it; the others are
   * grey; nothing is painted when painting is off.
   */
  function CapsuleColour(highlight: seq<int>, j: nat, paint: bool): Colour {
    if !paint then Unpainted
    else if j % PaletteSize in highlight then Palette(HighlightedBefore(highlight, j) % PaletteSize)
    else Grey
  }

  /** With the script's highlight list `[0..19]` every capsule `j` is painted palette colour `j % 20`. */
  lemma DefaultHighlightPaintsByIndex(j: nat)
    ensures CapsuleColour(HighlightCaps, j, true) == Palette(j % PaletteSize)
  {
    DefaultHighlightCountsAll(j);
    assert HighlightCaps[j % PaletteSize] == j % PaletteSize;
  }

  lemma {:induction false} DefaultHighlightCountsAll(j: nat)
    ensures HighlightedBefore(HighlightCaps, j) == j
  {
    if j > 0 {
      DefaultHighlightCountsAll(j - 1);
      assert HighlightCaps[(j - 1) % PaletteSize] == (j - 1) % PaletteSize;
    }
  }

  /** The patch of capsule `j`, painted one colour. */
  function PaintedPatch<P>(recon: seq<P>, caps: nat, slots: nat, j: nat, c: Colour): seq<Painted<P>>
    requires j < caps && caps * slots <= |recon|
  {
    seq(slots, m requires 0 <= m < slots =>
      SourceIndexBelow(caps, slots, j, m);
      Painted(recon[SourceIndex(caps, j, m)], c))
  }

  /** The merged cloud after the patches of capsules `0 .. upto - 1` have been appended. */
  function Merged<P>(recon: seq<P>, caps: nat, slots: nat, upto: nat, paint: bool, highlight: seq<int>)
    : seq<Painted<P>>
    requires upto <= caps && caps * slots <= |recon|
  {
    if upto == 0 then []
    else
      Merged(recon, caps, slots, upto - 1, paint, highlight) +
      PaintedPatch(recon, caps, slots, upto - 1, CapsuleColour(highlight, upto - 1, paint))
  }

  /** The position in the merged cloud of slot `m` of capsule `j`. */
  function CloudPos(slots: nat, j: nat, m: nat): nat {
    j * slots + m
  }

  lemma {:induction false} MergedLength<P>(recon: seq<P>, caps: nat, slots: nat, upto: nat, paint: bool, highlight: seq<int>)
    requires upto <= caps && caps * slots <= |recon|
    ensures |Merged(recon, caps, slots, upto, paint, highlight)| == upto * slots
  {
    if upto > 0 {
      MergedLength(recon, caps, slots, upto - 1, paint, highlight);
      assert (upto - 1) * slots + slots == upto * slots;
    }
  }

  /**
   * Slot `m` of capsule `j` sits at position `j * slots + m` of the merged
   * cloud, painted capsule `j`'s colour.
   */
  lemma {:induction false} MergedAt<P>(recon: seq<P>, caps: nat, slots: nat, upto: nat, paint: bool, highlight: seq<int>, j: nat, m: nat)
    requires upto <= caps && caps * slots <= |recon|
    requires j < upto && m < slots
    ensures CloudPos(slots, j, m) < |Merged(recon, caps, slots, upto, paint, highlight)|
    ensures SourceIndex(caps, j, m) < |recon|
    ensures Merged(recon, caps, slots, upto, paint, highlight)[CloudPos(slots, j, m)] ==
      Painted(recon[SourceIndex(caps, j, m)], CapsuleColour(highlight, j, paint))
  {
    var before := Merged(recon, caps, slots, upto - 1, paint, highlight);
    var patch := PaintedPatch(recon, caps, slots, upto - 1, CapsuleColour(highlight, upto - 1, paint));
    assert Merged(recon, caps, slots, upto, paint, highlight) == before + patch;
    MergedLength(recon, caps, slots, upto - 1, paint, highlight);
    var k := CloudPos(slots, j, m);
    SourceIndexBelow(caps, slots, j, m);
    if j < upto - 1 {
      MergedAt(recon, caps, slots, upto - 1, paint, highlight, j, m);
      assert (before + patch)[k] == before[k];
    } else {
      assert k == |before| + m;
      assert (before + patch)[k] == patch[m];
    }
  }

  /**
   * The merged cloud holds `upto * slots` points, capsule by capsule: at
   * position `j * slots + m` it has reconstruction point `caps * m + j`,
   * painted capsule `j`'s colour.
   */
  lemma MergedLayout<P>(recon: seq<P>, caps: nat, slots: nat, upto: nat, paint: bool, highlight: seq<int>)
    requires upto <= caps && caps * slots <= |recon|
    ensures |Merged(recon, caps, slots, upto, paint, highlight)| == upto * slots
    ensures forall j: nat, m: nat :: j < upto && m < slots ==>
      CloudPos(slots, j, m) < upto * slots && SourceIndex(caps, j, m) < |recon| &&
      Merged(recon, caps, slots, upto, paint, highlight)[CloudPos(slots, j, m)] ==
        Painted(recon[SourceIndex(caps, j, m)], CapsuleColour(highlight, j, paint))
  {
    MergedLength(recon, caps, slots, upto, paint, highlight);
    forall j: nat, m: nat | j < upto && m < slots
      ensures CloudPos(slots, j, m) < upto * slots
      ensures SourceIndex(caps, j, m) < |recon|
      ensures Merged(recon, caps, slots, upto, paint, highlight)[CloudPos(slots, j, m)] ==
        Painted(recon[SourceIndex(caps, j, m)], CapsuleColour(highlight, j, paint))
    {
      MergedAt(recon, caps, slots, upto, paint, highlight, j, m);
    }
  }

  /**
   * Gathers capsule `j`'s patch into a fresh buffer of `slots` points, slot
   * `m` from reconstruction point `caps * m + j`, or raises when one of
   * those points is past the reconstruction's end.
   */
  method ExtractPatch<P(0)>(recon: seq<P>, caps: nat, slots: nat, j: nat) returns (r: Result<seq<P>, VizError>)
    requires j < caps
    ensures r.Ok? <==> slots == 0 || caps * (slots - 1) + j < |recon|
    ensures r.Ok? ==> |r.value| == slots
    ensures r.Ok? ==> forall m :: 0 <= m < slots ==> r.value[m] == recon[SourceIndex(caps, j, m)]
  {
    var patch := new P[slots];
    for m := 0 to slots
      invariant forall k :: 0 <= k < m ==> SourceIndex(caps, j, k) < |recon|
      invariant forall k :: 0 <= k < m ==> patch[k] == recon[SourceIndex(caps, j, k)]
    {
      var index := caps * m + j;
      if index >= |recon| {
        Arith.MulMono(m, slots - 1, caps);
        return Err(IndexOutOfRange);
      }
      patch[m] := recon[index];
    }
    if slots > 0 {
      assert SourceIndex(caps, j, slots - 1) < |recon|;
    }
    return Ok(patch[..]);
  }

  /**
   * Splits one reconstruction into its capsules' patches, paints them when
   * `paint` is set, and merges them into one cloud in capsule order. It
   * raises exactly when some patch slot reads past the reconstruction.
   */
  method MergeCloud<P(0)>(recon: seq<P>, caps: nat, numPoints: nat, paint: bool, highlight: seq<int>)
    returns (r: Result<seq<Painted<P>>, VizError>)
    ensures r == MergeSpec(recon, caps, numPoints, paint, highlight)
  {
    var cloud: seq<Painted<P>> := [];
    var jc := 0;
    for j := 0 to caps
      invariant paint ==> jc == HighlightedBefore(highlight, j)
      invariant j == 0 ==> cloud == []
      invariant j > 0 ==>
        (PatchLen(numPoints, caps) == 0 || caps * (PatchLen(numPoints, caps) - 1) + (j - 1) < |recon|)
      invariant caps > 0 && caps * PatchLen(numPoints, caps) <= |recon| ==>
        cloud == Merged(recon, caps, PatchLen(numPoints, caps), j, paint, highlight)
    {
      var slots := PatchLen(numPoints, caps);
      var patch := ExtractPatch(recon, caps, slots, j);
      if patch.Err? {
        assert slots > 0 && caps * (slots - 1) + j >= |recon|;
        assert caps * slots == caps * (slots - 1) + caps;
        assert caps * slots > |recon|;
        assert MergeSpec(recon, caps, numPoints, paint, highlight) == Err(IndexOutOfRange);
        return Err(IndexOutOfRange);
      }
      var colour := Unpainted;
      if paint {
        if j % PaletteSize in highlight {
          colour := Palette(jc % PaletteSize);
          jc := jc + 1;
        } else {
          colour := Grey;
        }
      }
      assert colour == CapsuleColour(highlight, j, paint);
      var painted := seq(slots, m requires 0 <= m < slots => Painted(patch.value[m], colour));
      if caps * slots <= |recon| {
        assert painted == PaintedPatch(recon, caps, slots, j, colour);
      }
      cloud := cloud + painted;
    }
    if caps > 0 {
      var slots := PatchLen(numPoints, caps);
      if slots > 0 {
        assert caps * slots == caps * (slots - 1) + caps;
      }
      assert caps * slots <= |recon|;
      assert cloud == Merged(recon, caps, slots, caps, paint, highlight);
    } else {
      assert cloud == [];
    }
    return Ok(cloud);
  }

  /**
   * The merged cloud of one reconstruction, or IndexError when the
   * reconstruction has fewer than `caps * slots` points.
   */
  function MergeSpec<P>(recon: seq<P>, caps: nat, numPoints: nat, paint: bool, highlight: seq<int>)
    : Result<seq<Painted<P>>, VizError>
  {
    if caps == 0 then Ok([])
    else if caps * PatchLen(numPoints, caps) <= |recon| then
      Ok(Merged(recon, caps, PatchLen(numPoints, caps), caps, paint, highlight))
    else Err(IndexOutOfRange)
  }

  /**
   * The merged cloud has `caps * slots` points, capsule `j` occupying
   * positions `[j * slots, (j + 1) * slots)`; a reconstruction of at least
   * `numPoints` points never raises.
   */
  lemma MergeSpecShape<P>(recon: seq<P>, caps: nat, numPoints: nat, paint: bool, highlight: seq<int>)
    requires caps > 0 && numPoints <= |recon|
    ensures MergeSpec(recon, caps, numPoints, paint, highlight).Ok?
    ensures |MergeSpec(recon, caps, numPoints, paint, highlight).value| == caps * PatchLen(numPoints, caps)
  {
    var slots := PatchLen(numPoints, caps);
    MergedLayout(recon, caps, slots, caps, paint, highlight);
    assert caps * slots == slots * caps;
  }

  /**
   * The reconstructions shown, batch by batch: the first `batchSize` clouds
   * of each batch, up to the first batch holding fewer than `batchSize`.
   */
  function Queue<P>(batches: seq<seq<seq<P>>>, batchSize: int): seq<seq<P>>
  {
    if batches == [] || |batches[0]| < batchSize then []
    else batches[0][..if batchSize > 0 then batchSize else 0] + Queue(batches[1..], batchSize)
  }

  /** Merges and shows each queued reconstruction in turn until one raises. */
  function ShowAll<P>(clouds: seq<seq<P>>, caps: nat, numPoints: nat, paint: bool): Display<P>
  {
    if clouds == [] then Display([], None)
    else match MergeSpec(clouds[0], caps, numPoints, paint, HighlightCaps)
      case Err(e) => Display([], Some(e))
      case Ok(c) => Shift([c], ShowAll(clouds[1..], caps, numPoints, paint))
  }

  /** A reconstruction of at least `numPoints` points merges without raising. */
  lemma MergeSpecOk<P>(recon: seq<P>, caps: nat, numPoints: nat, paint: bool, highlight: seq<int>)
    requires numPoints <= |recon|
    ensures MergeSpec(recon, caps, numPoints, paint, highlight).Ok?
  {
    if caps > 0 {
      MergeSpecShape(recon, caps, numPoints, paint, highlight);
    }
  }

  /**
   * When every queued reconstruction has at least `numPoints` points nothing
   * raises: one merged cloud is shown per reconstruction, in queue order.
   */
  lemma {:induction false} ShowAllShowsEach<P>(clouds: seq<seq<P>>, caps: nat, numPoints: nat, paint: bool)
    requires forall i :: 0 <= i < |clouds| ==> numPoints <= |clouds[i]|
    ensures var d := ShowAll(clouds, caps, numPoints, paint);
      d.failure == None && |d.shown| == |clouds| &&
      forall i :: 0 <= i < |clouds| ==>
        MergeSpec(clouds[i], caps, numPoints, paint, HighlightCaps).Ok? &&
        d.shown[i] == MergeSpec(clouds[i], caps, numPoints, paint, HighlightCaps).value
  {
    if clouds != [] {
      var rest := clouds[1..];
      ShowAllShowsEach(rest, caps, numPoints, paint);
      MergeSpecOk(clouds[0], caps, numPoints, paint, HighlightCaps);
      var c := MergeSpec(clouds[0], caps, numPoints, paint, HighlightCaps).value;
      var tail := ShowAll(rest, caps, numPoints, paint);
      assert ShowAll(clouds, caps, numPoints, paint) == Shift([c], tail);
      forall i | 0 <= i < |clouds|
        ensures MergeSpec(clouds[i], caps, numPoints, paint, HighlightCaps).Ok?
        ensures ([c] + tail.shown)[i] == MergeSpec(clouds[i], caps, numPoints, paint, HighlightCaps).value
      {
        if i > 0 {
          assert clouds[i] == rest[i - 1];
        }
      }
    }
  }

  /** Clouds already shown, followed by what is shown afterwards. */
  function Shift<P>(shown: seq<seq<Painted<P>>>, rest: Display<P>): Display<P> {
    Display(shown + rest.shown, rest.failure)
  }

  /**
   * A batch with fewer than `batchSize` clouds ends the loop: nothing from
   * it or any later batch is shown.
   */
  lemma {:induction false} ShortBatchStops<P>(batches: seq<seq<seq<P>>>, batchSize: int, k: nat)
    requires k < |batches| && |batches[k]| < batchSize
    ensures Queue(batches, batchSize) == Queue(batches[..k], batchSize)
  {
    if k > 0 && |batches[0]| >= batchSize {
      ShortBatchStops(batches[1..], batchSize, k - 1);
      assert batches[1..][..k - 1] == batches[..k][1..];
    }
  }

  /** When no batch is short, `batchSize` clouds are queued from every batch, in order. */
  lemma {:induction false} FullBatchesQueueAll<P>(batches: seq<seq<seq<P>>>, batchSize: nat, i: nat, p: nat)
    requires forall k :: 0 <= k < |batches| ==> |batches[k]| >= batchSize
    requires i < |batches| && p < batchSize
    ensures |Queue(batches, batchSize)| == |batches| * batchSize
    ensures i * batchSize + p < |Queue(batches, batchSize)|
    ensures Queue(batches, batchSize)[i * batchSize + p] == batches[i][p]
  {
    var q := Queue(batches, batchSize);
    if i > 0 {
      FullBatchesQueueAll(batches[1..], batchSize, i - 1, p);
      assert (i - 1) * batchSize + p + batchSize == i * batchSize + p;
    } else {
      if |batches| > 1 {
        FullBatchesQueueAll(batches[1..], batchSize, 0, p);
      }
    }
    assert |q| == batchSize + |Queue(batches[1..], batchSize)|;
    assert (|batches| - 1) * batchSize + batchSize == |batches| * batchSize;
  }

  lemma QueueUnfold<P>(batches: seq<seq<seq<P>>>, batchSize: int, b: nat)
    requires b < |batches| && |batches[b]| >= batchSize
    ensures var n := if batchSize > 0 then batchSize else 0;
      Queue(batches[b..], batchSize) == batches[b][0..n] + Queue(batches[b + 1..], batchSize)
  {
    assert batches[b..][0] == batches[b];
    assert batches[b..][1..] == batches[b + 1..];
  }

  lemma ShowAllStep<P>(batch: seq<seq<P>>, p: nat, n: nat, rest: seq<seq<P>>, caps: nat, numPoints: nat, paint: bool)
    requires p < n <= |batch|
    ensures ShowAll(batch[p..n] + rest, caps, numPoints, paint) ==
      match MergeSpec(batch[p], caps, numPoints, paint, HighlightCaps)
      case Err(e) => Display([], Some(e))
      case Ok(c) => Shift([c], ShowAll(batch[p + 1..n] + rest, caps, numPoints, paint))
  {
    var clouds := batch[p..n] + rest;
    assert clouds[0] == batch[p];
    assert clouds[1..] == batch[p + 1..n] + rest;
  }

  lemma ShiftAssoc<P>(a: seq<seq<Painted<P>>>, b: seq<seq<Painted<P>>>, d: Display<P>)
    ensures Shift(a, Shift(b, d)) == Shift(a + b, d)
  {
    assert a + (b + d.shown) == (a + b) + d.shown;
  }

  /**
   * Merges and shows the first `n` reconstructions of one batch in turn,
   * stopping at the first IndexError. Followed by the clouds of `rest`, the
   * batch shows `shown` and then what `rest` shows, or, when one raised,
   * `shown` and that exception.
   */
  method ShowBatch<P(0)>(batch: seq<seq<P>>, n: nat, caps: nat, numPoints: nat, paint: bool, ghost rest: seq<seq<P>>)
    returns (shown: seq<seq<Painted<P>>>, failure: Option<VizError>)
    requires n <= |batch|
    ensures ShowAll(batch[..n] + rest, caps, numPoints, paint) ==
      if failure.Some? then Display(shown, failure) else Shift(shown, ShowAll(rest, caps, numPoints, paint))
  {
    ghost var all := ShowAll(batch[..n] + rest, caps, numPoints, paint);
    shown := [];
    assert batch[0..n] == batch[..n];
    assert all == Shift(shown, all);
    for p := 0 to n
      invariant all == Shift(shown, ShowAll(batch[p..n] + rest, caps, numPoints, paint))
    {
      var cloud := MergeCloud(batch[p], caps, numPoints, paint, HighlightCaps);
      ShowAllStep(batch, p, n, rest, caps, numPoints, paint);
      if cloud.Err? {
        return shown, Some(cloud.error);
      }
      ShiftAssoc(shown, [cloud.value], ShowAll(batch[p + 1..n] + rest, caps, numPoints, paint));
      shown := shown + [cloud.value];
    }
    assert batch[n..n] + rest == rest;
    failure := None;
  }

  /**
   * The visualisation loop over the test batches: a short batch ends it;
   * otherwise the first `batchSize` reconstructions of the batch are merged
   * and shown one by one. An IndexError stops everything after the clouds
   * already shown.
   */
  method ShowBatches<P(0)>(batches: seq<seq<seq<P>>>, batchSize: int, caps: nat, numPoints: nat, paint: bool)
    returns (d: Display<P>)
    ensures d == ShowAll(Queue(batches, batchSize), caps, numPoints, paint)
  {
    ghost var all := ShowAll(Queue(batches, batchSize), caps, numPoints, paint);
    var shown: seq<seq<Painted<P>>> := [];
    var n := if batchSize > 0 then batchSize else 0;
    var b := 0;
    assert batches[0..] == batches;
    assert all == Shift(shown, all);
    while b < |batches|
      invariant b <= |batches|
      invariant all == Shift(shown, ShowAll(Queue(batches[b..], batchSize), caps, numPoints, paint))
    {
      var batch := batches[b];
      if |batch| < batchSize {
        assert Queue(batches[b..], batchSize) == [] by {
          assert batches[b..][0] == batch;
        }
        assert shown + [] == shown;
        return Display(shown, None);
      }
      ghost var rest := Queue(batches[b + 1..], batchSize);
      QueueUnfold(batches, batchSize, b);
      assert batch[0..n] == batch[..n];
      var more, failure := ShowBatch(batch, n, caps, numPoints, paint, rest);
      if failure.Some? {
        return Display(shown + more, failure);
      }
      ShiftAssoc(shown, more, ShowAll(rest, caps, numPoints, paint));
      shown := shown + more;
      b := b + 1;
    }
    assert batches[b..] == [];
    assert shown + [] == shown;
    return Display(shown, None);
  }
}
