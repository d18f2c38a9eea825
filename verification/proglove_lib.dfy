/** The C interface of the ProGlove client library: its result codes, the
    taxel segments of the tactile status record and their sizes, and how the
    wrappers copy the record into per-segment lists.

    The record's eighteen `unsigned char` arrays follow each other without
    padding, so the model views them as one block of 100 bytes in declaration
    order; each segment is a slice of that block. */
module ProGloveLib {

  const SUCCESS: int := 0
  const ERROR_NULL: int := -1
  const ERROR_CONNECTION: int := -2
  const ERROR_INVALID_ARGUMENT: int := -3
  const ERROR_NOT_CONNECTED: int := -4
  const ERROR_UNSUPPORTED: int := -5
  const ERROR_OTHER: int := -99

  newtype byte = x: int | 0 <= x < 256
  newtype u32 = x: int | 0 <= x < 0x1_0000_0000

  /** An opaque client handle; `live` until the library destroys it. */
  class LibHandle {
    var live: bool

    constructor ()
      ensures live
    {
      live := true;
    }
  }

  datatype Request = Ping | IsConnected | TryRecvStatus

  /** The taxel segments, in the order the record declares them. */
  datatype Segment =
    | TDip | TMcp | TPip
    | IDip | IMcp | IPip
    | MDip | MMcp | MPip
    | RDip | RMcp | RPip
    | PDip | PMcp | PPip
    | UpperPalm | MiddlePalm | LowerPalm

  const Layout: seq<Segment> := [TDip, TMcp, TPip, IDip, IMcp, IPip, MDip, MMcp, MPip,
                                 RDip, RMcp, RPip, PDip, PMcp, PPip, UpperPalm, MiddlePalm, LowerPalm]

  const TOTAL_TAXELS: nat := 100

  /** Taxels per segment (the PROGLOVE_TAXELS_* constants). */
  function Size(s: Segment): nat
  {
    match s
    case TDip => 6
    case TMcp => 10
    case TPip => 4
    case IDip => 4
    case IMcp => 2
    case IPip => 2
    case MDip => 4
    case MMcp => 2
    case MPip => 2
    case RDip => 4
    case RMcp => 2
    case RPip => 2
    case PDip => 4
    case PMcp => 2
    case PPip => 2
    case UpperPalm => 16
    case MiddlePalm => 16
    case LowerPalm => 16
  }

  /** Where each segment of the layout starts in the record, and where the
      last one ends. */
  const Offsets: seq<nat> := [0, 6, 16, 20, 24, 26, 28, 32, 34, 36, 40, 42, 44, 48, 50, 52, 68, 84, 100]

  function Offset(k: nat): nat
    requires k <= |Layout|
  {
    Offsets[k]
  }

  /** The segments lie back to back, each as long as its size, and fill the
      record exactly. */
  lemma OffsetStep(k: nat)
    requires k < |Layout|
    ensures Offset(k + 1) == Offset(k) + Size(Layout[k])
    ensures Offset(0) == 0 && Offset(|Layout|) == TOTAL_TAXELS
  {
    if k == 0 {} else if k == 1 {} else if k == 2 {} else if k == 3 {} else if k == 4 {}
    else if k == 5 {} else if k == 6 {} else if k == 7 {} else if k == 8 {} else if k == 9 {}
    else if k == 10 {} else if k == 11 {} else if k == 12 {} else if k == 13 {} else if k == 14 {}
    else if k == 15 {} else if k == 16 {} else {}
  }

  /** The record as the library fills it: the taxel block is the eighteen
      arrays side by side. */
  type Block = s: seq<byte> | |s| == 100 witness seq(100, _ => 0)

  datatype TactileStatusInfo = TactileStatusInfo(isValid: int, timestamp: u32, uid: u32, taxels: Block)

  /** TactileStatus of both wrappers: one list per segment. */
  datatype TactileStatus = TactileStatus(
    isValid: bool, timestamp: u32, uid: u32,
    tDip: seq<byte>, tMcp: seq<byte>, tPip: seq<byte>,
    iDip: seq<byte>, iMcp: seq<byte>, iPip: seq<byte>,
    mDip: seq<byte>, mMcp: seq<byte>, mPip: seq<byte>,
    rDip: seq<byte>, rMcp: seq<byte>, rPip: seq<byte>,
    pDip: seq<byte>, pMcp: seq<byte>, pPip: seq<byte>,
    upperPalm: seq<byte>, middlePalm: seq<byte>, lowerPalm: seq<byte>)

  function Field(st: TactileStatus, s: Segment): seq<byte>
  {
    match s
    case TDip => st.tDip
    case TMcp => st.tMcp
    case TPip => st.tPip
    case IDip => st.iDip
    case IMcp => st.iMcp
    case IPip => st.iPip
    case MDip => st.mDip
    case MMcp => st.mMcp
    case MPip => st.mPip
    case RDip => st.rDip
    case RMcp => st.rMcp
    case RPip => st.rPip
    case PDip => st.pDip
    case PMcp => st.pMcp
    case PPip => st.pPip
    case UpperPalm => st.upperPalm
    case MiddlePalm => st.middlePalm
    case LowerPalm => st.lowerPalm
  }

  /** The k-th segment of a taxel block. */
  function Slice(taxels: seq<byte>, k: nat): (part: seq<byte>)
    requires |taxels| == TOTAL_TAXELS && k < |Layout|
    ensures |part| == Size(Layout[k])
  {
    OffsetBounds(k);
    taxels[Offset(k)..Offset(k + 1)]
  }

  lemma {:induction false} OffsetBounds(k: nat)
    requires k < |Layout|
    ensures Offset(k + 1) == Offset(k) + Size(Layout[k]) <= TOTAL_TAXELS
  {
    OffsetStep(k);
    OffsetMonotone(k + 1, |Layout|);
  }

  /** A status whose k-th list in layout order is parts[k]. */
  function Assemble(isValid: bool, timestamp: u32, uid: u32, parts: seq<seq<byte>>): TactileStatus
    requires |parts| == |Layout|
  {
    TactileStatus(isValid, timestamp, uid,
      parts[0], parts[1], parts[2], parts[3], parts[4], parts[5],
      parts[6], parts[7], parts[8], parts[9], parts[10], parts[11],
      parts[12], parts[13], parts[14], parts[15], parts[16], parts[17])
  }

  lemma AssembleField(isValid: bool, timestamp: u32, uid: u32, parts: seq<seq<byte>>, k: nat)
    requires |parts| == |Layout| && k < |Layout|
    ensures Field(Assemble(isValid, timestamp, uid, parts), Layout[k]) == parts[k]
  {
    if k == 0 {} else if k == 1 {} else if k == 2 {} else if k == 3 {} else if k == 4 {}
    else if k == 5 {} else if k == 6 {} else if k == 7 {} else if k == 8 {} else if k == 9 {}
    else if k == 10 {} else if k == 11 {} else if k == 12 {} else if k == 13 {} else if k == 14 {}
    else if k == 15 {} else if k == 16 {} else {}
  }

  /** The copy both wrappers make of a filled record (the eighteen
      `assign` / `list(...)` statements). */
  function Unpack(info: TactileStatusInfo): (st: TactileStatus)
    ensures st.isValid <==> info.isValid != 0
    ensures st.timestamp == info.timestamp && st.uid == info.uid
  {
    Assemble(info.isValid != 0, info.timestamp, info.uid,
             seq(|Layout|, k requires 0 <= k < |Layout| => Slice(info.taxels, k)))
  }

  /** Each list of the copy is its segment's slice of the record. */
  lemma UnpackField(info: TactileStatusInfo, k: nat)
    requires k < |Layout|
    ensures Field(Unpack(info), Layout[k]) == Slice(info.taxels, k)
  {
    var parts := seq(|Layout|, k requires 0 <= k < |Layout| => Slice(info.taxels, k));
    AssembleField(info.isValid != 0, info.timestamp, info.uid, parts, k);
  }

  /** Every list has its segment's size. */
  predicate Sized(st: TactileStatus)
  {
    forall k :: 0 <= k < |Layout| ==> |Field(st, Layout[k])| == Size(Layout[k])
  }

  /** The segments from the k-th on, joined in layout order. */
  function FlattenFrom(st: TactileStatus, k: nat): seq<byte>
    requires k <= |Layout|
    decreases |Layout| - k
  {
    if k == |Layout| then [] else Field(st, Layout[k]) + FlattenFrom(st, k + 1)
  }

  /** The inverse of Unpack: all segments joined in layout order. */
  function Flatten(st: TactileStatus): seq<byte>
  {
    FlattenFrom(st, 0)
  }

  /** A status whose every list is its segment's slice of `taxels` joins,
      from the k-th segment on, to the rest of `taxels` from Offset(k). */
  lemma {:induction false} FlattenFromSlices(st: TactileStatus, taxels: Block, k: nat)
    requires k <= |Layout|
    requires forall i :: 0 <= i < |Layout| ==> Field(st, Layout[i]) == Slice(taxels, i)
    ensures FlattenFrom(st, k) == taxels[Offset(k)..]
    decreases |Layout| - k
  {
    if k < |Layout| {
      FlattenFromSlices(st, taxels, k + 1);
      OffsetBounds(k);
      assert FlattenFrom(st, k) == taxels[Offset(k)..Offset(k + 1)] + taxels[Offset(k + 1)..];
      assert taxels[Offset(k)..] == taxels[Offset(k)..Offset(k + 1)] + taxels[Offset(k + 1)..];
    } else {
      OffsetStep(0);
    }
  }

  /** No taxel is lost, duplicated or reordered by the copy. */
  lemma FlattenUnpack(info: TactileStatusInfo)
    ensures Flatten(Unpack(info)) == info.taxels
  {
    var u := Unpack(info);
    forall i | 0 <= i < |Layout|
      ensures Field(u, Layout[i]) == Slice(info.taxels, i)
    {
      UnpackField(info, i);
    }
    FlattenFromSlices(u, info.taxels, 0);
    OffsetStep(0);
    assert info.taxels[Offset(0)..] == info.taxels;
  }

  /** The joined segments from the k-th on fill the record from Offset(k) on,
      and start with the k-th segment. */
  lemma {:induction false} FlattenFromSized(st: TactileStatus, k: nat)
    requires Sized(st) && k <= |Layout|
    ensures |FlattenFrom(st, k)| == TOTAL_TAXELS - Offset(k)
    ensures k < |Layout| ==> FlattenFrom(st, k)[..Size(Layout[k])] == Field(st, Layout[k])
    decreases |Layout| - k
  {
    if k < |Layout| {
      FlattenFromSized(st, k + 1);
      OffsetStep(k);
    } else {
      OffsetStep(0);
    }
  }

  /** `rest` is how `w` ends. */
  ghost predicate EndsWith(w: seq<byte>, rest: seq<byte>)
  {
    |rest| <= |w| && w[|w| - |rest|..] == rest
  }

  /** The joined segments from the k-th on end the whole joined record. */
  lemma {:induction false} FlattenSuffix(st: TactileStatus, k: nat)
    requires k <= |Layout|
    ensures EndsWith(Flatten(st), FlattenFrom(st, k))
    decreases k
  {
    if k == 0 {
      assert Flatten(st)[0..] == Flatten(st);
    } else {
      FlattenSuffix(st, k - 1);
      FlattenFromStep(st, k - 1);
      SuffixOfSuffix(Flatten(st), FlattenFrom(st, k - 1), Field(st, Layout[k - 1]), FlattenFrom(st, k - 1 + 1));
    }
  }

  lemma FlattenFromStep(st: TactileStatus, k: nat)
    requires k < |Layout|
    ensures FlattenFrom(st, k) == Field(st, Layout[k]) + FlattenFrom(st, k + 1)
  {
  }

  /** A suffix of a suffix is a suffix. */
  lemma SuffixOfSuffix(w: seq<byte>, mid: seq<byte>, head: seq<byte>, rest: seq<byte>)
    requires EndsWith(w, mid) && mid == head + rest
    ensures EndsWith(w, rest)
  {
    assert w[|w| - |rest|..] == mid[|head|..];
  }

  lemma {:induction false} OffsetMonotone(i: nat, j: nat)
    requires i <= j <= |Layout|
    ensures Offset(i) <= Offset(j)
    decreases j - i
  {
    if i < j {
      OffsetMonotone(i, j - 1);
    }
  }

  lemma SameFields(a: TactileStatus, b: TactileStatus)
    requires a.isValid == b.isValid && a.timestamp == b.timestamp && a.uid == b.uid
    requires forall k :: 0 <= k < |Layout| ==> Field(a, Layout[k]) == Field(b, Layout[k])
    ensures a == b
  {
    assert a.tDip == b.tDip by { assert Field(a, Layout[0]) == Field(b, Layout[0]); }
    assert a.tMcp == b.tMcp by { assert Field(a, Layout[1]) == Field(b, Layout[1]); }
    assert a.tPip == b.tPip by { assert Field(a, Layout[2]) == Field(b, Layout[2]); }
    assert a.iDip == b.iDip by { assert Field(a, Layout[3]) == Field(b, Layout[3]); }
    assert a.iMcp == b.iMcp by { assert Field(a, Layout[4]) == Field(b, Layout[4]); }
    assert a.iPip == b.iPip by { assert Field(a, Layout[5]) == Field(b, Layout[5]); }
    assert a.mDip == b.mDip by { assert Field(a, Layout[6]) == Field(b, Layout[6]); }
    assert a.mMcp == b.mMcp by { assert Field(a, Layout[7]) == Field(b, Layout[7]); }
    assert a.mPip == b.mPip by { assert Field(a, Layout[8]) == Field(b, Layout[8]); }
    assert a.rDip == b.rDip by { assert Field(a, Layout[9]) == Field(b, Layout[9]); }
    assert a.rMcp == b.rMcp by { assert Field(a, Layout[10]) == Field(b, Layout[10]); }
    assert a.rPip == b.rPip by { assert Field(a, Layout[11]) == Field(b, Layout[11]); }
    assert a.pDip == b.pDip by { assert Field(a, Layout[12]) == Field(b, Layout[12]); }
    assert a.pMcp == b.pMcp by { assert Field(a, Layout[13]) == Field(b, Layout[13]); }
    assert a.pPip == b.pPip by { assert Field(a, Layout[14]) == Field(b, Layout[14]); }
    assert a.upperPalm == b.upperPalm by { assert Field(a, Layout[15]) == Field(b, Layout[15]); }
    assert a.middlePalm == b.middlePalm by { assert Field(a, Layout[16]) == Field(b, Layout[16]); }
    assert a.lowerPalm == b.lowerPalm by { assert Field(a, Layout[17]) == Field(b, Layout[17]); }
  }

  /** The record a status would be copied from. */
  function Repack(st: TactileStatus): (info: TactileStatusInfo)
    requires Sized(st)
  {
    FlattenFromSized(st, 0);
    OffsetStep(0);
    TactileStatusInfo(if st.isValid then 1 else 0, st.timestamp, st.uid, Flatten(st))
  }

  /** The k-th slice of the joined segments is the k-th segment. */
  lemma SliceFlatten(st: TactileStatus, k: nat)
    requires Sized(st) && k < |Layout|
    ensures |Flatten(st)| == TOTAL_TAXELS
    ensures Slice(Flatten(st), k) == Field(st, Layout[k])
  {
    var whole := Flatten(st);
    var a, n := Offset(k), Size(Layout[k]);
    assert |whole| == TOTAL_TAXELS && whole[a..] == FlattenFrom(st, k) by {
      FlattenSuffix(st, k);
      assert EndsWith(whole, FlattenFrom(st, k));
      FlattenFromSized(st, k);
      FlattenFromSized(st, 0);
      OffsetStep(0);
    }
    OffsetBounds(k);
    FlattenFromSized(st, k);
    assert whole[a..a + n] == whole[a..][..n];
  }

  lemma RepackField(st: TactileStatus, k: nat)
    requires Sized(st) && k < |Layout|
    ensures Field(Unpack(Repack(st)), Layout[k]) == Field(st, Layout[k])
  {
    UnpackField(Repack(st), k);
    SliceFlatten(st, k);
  }

  /** Unpacking a block made by Flatten gives the lists back. */
  lemma UnpackFlatten(st: TactileStatus)
    requires Sized(st)
    ensures Flatten(st) == Repack(st).taxels
    ensures Unpack(Repack(st)) == st
  {
    var u := Unpack(Repack(st));
    forall k | 0 <= k < |Layout|
      ensures Field(u, Layout[k]) == Field(st, Layout[k])
    {
      RepackField(st, k);
    }
    SameFields(u, st);
  }
}
