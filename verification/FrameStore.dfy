/** Snapshot frames: the FRAM header, and the bounded in-memory ring that keeps the latest frames by uri. */
module FrameStore {
  import opened Common

  type Byte = b: int | 0 <= b < 256
  type Bytes = seq<Byte>

  const FRAM_MAGIC: Bytes := [70, 82, 65, 77]
  const HEADER_LEN: nat := 20

  // ---------------------------------------------------------------- header

  function Pow256(n: nat): nat {
    if n == 0 then 1 else 256 * Pow256(n - 1)
  }

  /** `v` in `n` bytes, least significant first. */
  function LittleEndian(v: nat, n: nat): (bs: Bytes)
    ensures |bs| == n
  {
    if n == 0 then [] else [v % 256] + LittleEndian(v / 256, n - 1)
  }

  function FromLittleEndian(bs: Bytes): nat {
    if bs == [] then 0 else bs[0] + 256 * FromLittleEndian(bs[1..])
  }

  lemma {:induction false} IntRoundTrip(v: nat, n: nat)
    requires v < Pow256(n)
    ensures FromLittleEndian(LittleEndian(v, n)) == v
  {
    if n > 0 {
      IntRoundTrip(v / 256, n - 1);
      assert LittleEndian(v, n)[1..] == LittleEndian(v / 256, n - 1);
    }
  }

  /** The packer refuses values outside the unsigned field widths. */
  predicate Packable(width: int, height: int, ts: int) {
    0 <= width < 0x1_0000_0000 && 0 <= height < 0x1_0000_0000 && 0 <= ts < 0x1_0000_0000_0000_0000
  }

  function WrapFram(jpeg: Bytes, width: int, height: int, ts: int): (r: Option<Bytes>)
    ensures r.Some? <==> Packable(width, height, ts)
  {
    if Packable(width, height, ts) then
      Some(FRAM_MAGIC + LittleEndian(width, 4) + LittleEndian(height, 4) + LittleEndian(ts, 8) + jpeg)
    else None
  }

  predicate HasFramHeader(blob: Bytes) {
    |blob| >= 4 && blob[..4] == FRAM_MAGIC
  }

  /** None stands for the error on a blob without the magic; a truncated blob yields an empty payload. */
  function UnwrapFram(blob: Bytes): Option<Bytes> {
    if !HasFramHeader(blob) then None
    else Some(if |blob| < HEADER_LEN then [] else blob[HEADER_LEN..])
  }

  /** The bytes are those of the text. */
  ghost predicate Spells(bs: Bytes, text: string) {
    |bs| == |text| && forall i :: 0 <= i < |bs| ==> bs[i] == text[i] as int
  }

  /** A blob is taken for a frame exactly when it begins with the magic word; the payload is what follows 20 bytes. */
  lemma UnwrapIff(blob: Bytes)
    ensures UnwrapFram(blob).Some? <==> |blob| >= 4 && Spells(blob[..4], "FRAM")
    ensures UnwrapFram(blob).Some? ==> UnwrapFram(blob).value == blob[if |blob| < 20 then |blob| else 20..]
  {
    MagicIsWord();
  }

  lemma MagicIsWord()
    ensures forall bs: Bytes :: Spells(bs, "FRAM") <==> bs == FRAM_MAGIC
  {
    assert Spells(FRAM_MAGIC, "FRAM");
  }

  /** Packing fails exactly outside the field ranges; otherwise every field and the payload can be read back. */
  lemma HeaderRoundTrip(jpeg: Bytes, width: int, height: int, ts: int)
    ensures WrapFram(jpeg, width, height, ts).Some? <==>
              0 <= width <= 0xFFFF_FFFF && 0 <= height <= 0xFFFF_FFFF && 0 <= ts <= 0xFFFF_FFFF_FFFF_FFFF
    ensures WrapFram(jpeg, width, height, ts).Some? ==>
      var blob := WrapFram(jpeg, width, height, ts).value;
      && |blob| == 20 + |jpeg| && blob[20..] == jpeg && Spells(blob[..4], "FRAM")
      && UnwrapFram(blob) == Some(jpeg)
      && FromLittleEndian(blob[4..8]) == width
      && FromLittleEndian(blob[8..12]) == height
      && FromLittleEndian(blob[12..20]) == ts
  {
    if Packable(width, height, ts) {
      var w, h, t := LittleEndian(width, 4), LittleEndian(height, 4), LittleEndian(ts, 8);
      var blob := FRAM_MAGIC + w + h + t + jpeg;
      assert blob[..4] == FRAM_MAGIC && blob[20..] == jpeg;
      MagicIsWord();
      assert blob[4..8] == w && blob[8..12] == h && blob[12..20] == t;
      assert Pow256(4) == 0x1_0000_0000;
      assert Pow256(8) == 256 * 256 * 256 * 256 * Pow256(4);
      IntRoundTrip(width, 4);
      IntRoundTrip(height, 4);
      IntRoundTrip(ts, 8);
    }
  }

  // ---------------------------------------------------------------- uris

  function Digit(d: nat): char
    requires d < 10
  {
    '0' + d as char
  }

  /** The decimal digits of `n`, padded with zeros to `width`. */
  function Padded(n: nat, width: nat): string
    decreases n, width
  {
    if n < 10 then Zeros(width - 1) + [Digit(n)]
    else Padded(n / 10, if width == 0 then 0 else width - 1) + [Digit(n % 10)]
  }

  function Zeros(k: int): string {
    if k <= 0 then "" else Zeros(k - 1) + "0"
  }

  function Number(s: string): int {
    if s == "" then 0 else 10 * Number(s[..|s| - 1]) + (s[|s| - 1] as int - '0' as int)
  }

  lemma {:induction false} ZerosAreZero(k: int)
    ensures Number(Zeros(k)) == 0
  {
    if k > 0 {
      ZerosAreZero(k - 1);
      assert Zeros(k)[..|Zeros(k)| - 1] == Zeros(k - 1);
    }
  }

  lemma {:induction false} PaddedReadsBack(n: nat, width: nat)
    ensures Number(Padded(n, width)) == n
    decreases n
  {
    var s := Padded(n, width);
    if n < 10 {
      ZerosAreZero(width - 1);
      assert s[..|s| - 1] == Zeros(width - 1);
    } else {
      var w := if width == 0 then 0 else width - 1;
      PaddedReadsBack(n / 10, w);
      assert s[..|s| - 1] == Padded(n / 10, w);
    }
  }

  function Uri(n: nat): string {
    "mem:frame-" + Padded(n, 5)
  }

  ghost predicate Decimal(s: string) {
    forall i :: 0 <= i < |s| ==> '0' <= s[i] <= '9'
  }

  lemma {:induction false} ZerosAre(k: int)
    ensures |Zeros(k)| == (if k <= 0 then 0 else k) && Decimal(Zeros(k))
  {
    if k > 0 { ZerosAre(k - 1); }
  }

  /** Decimal digits, no fewer than the width, and no leading zero beyond it. */
  lemma {:induction false} PaddedShape(n: nat, width: nat)
    ensures var s := Padded(n, width);
            && Decimal(s) && |s| >= 1 && |s| >= width && (n >= 10 ==> |s| >= 2)
            && (|s| > width && |s| > 1 ==> s[0] != '0')
    decreases n
  {
    if n < 10 {
      ZerosAre(width - 1);
    } else {
      var w := if width == 0 then 0 else width - 1;
      PaddedShape(n / 10, w);
      var p := Padded(n / 10, w);
      if |p| == 1 { assert p == [Digit(n / 10)] by { ZerosAre(w - 1); } }
    }
  }

  /** A uri is the prefix and the number, in five digits or, without leading zeros, as many as it takes. */
  lemma UriIs(n: nat)
    ensures var s := Uri(n);
            && |s| >= 15 && s[..10] == "mem:frame-" && Decimal(s[10..]) && Number(s[10..]) == n
            && (|s| > 15 ==> s[10] != '0')
  {
    PaddedShape(n, 5);
    PaddedReadsBack(n, 5);
    hide Padded;
    assert Uri(n)[10..] == Padded(n, 5);
  }

  /** No two sequence numbers share a uri, even past the padding. */
  lemma UrisDiffer(m: nat, n: nat)
    ensures Uri(m) == Uri(n) <==> m == n
  {
    PaddedReadsBack(m, 5);
    PaddedReadsBack(n, 5);
    if Uri(m) == Uri(n) {
      assert Uri(m)[10..] == Padded(m, 5) && Uri(n)[10..] == Padded(n, 5);
    }
  }

  // ---------------------------------------------------------------- the ring against the full log

  datatype Frame = Frame(jpeg: Bytes, width: int, height: int, ts: int)
  datatype Entry = Entry(uri: string, blob: Bytes)

  /** Everything ever stored by the puts, in order; a refused frame uses up its number. */
  function Log(puts: seq<Frame>): seq<Entry> {
    if puts == [] then []
    else
      var f := puts[|puts| - 1];
      var w := WrapFram(f.jpeg, f.width, f.height, f.ts);
      Log(puts[..|puts| - 1]) + (if w.Some? then [Entry(Uri(|puts|), w.value)] else [])
  }

  function Blob(f: Frame): Option<Bytes> {
    WrapFram(f.jpeg, f.width, f.height, f.ts)
  }

  /** How many frames were stored after put number `k`. */
  function StoredAfter(puts: seq<Frame>, k: nat): int
    requires k <= |puts|
  {
    |Log(puts)| - |Log(puts[..k])|
  }

  lemma {:induction false} LogExtends(puts: seq<Frame>, k: nat)
    requires k <= |puts|
    ensures Log(puts[..k]) <= Log(puts)
  {
    if k == |puts| {
      assert puts[..k] == puts;
    } else {
      LogExtends(puts[..|puts| - 1], k);
      assert puts[..|puts| - 1][..k] == puts[..k];
    }
  }

  /** Put number `k`, if accepted, is the last entry of the log at that point. */
  lemma EntryOf(puts: seq<Frame>, k: nat)
    requires 1 <= k <= |puts| && Blob(puts[k - 1]).Some?
    ensures var at := |Log(puts[..k])| - 1;
            0 <= at < |Log(puts)| && Log(puts)[at] == Entry(Uri(k), Blob(puts[k - 1]).value)
  {
    LogExtends(puts, k);
    assert puts[..k][..k - 1] == puts[..k - 1];
  }

  /** Every entry of the log is that of some accepted put. */
  lemma {:induction false} EntryNumber(puts: seq<Frame>, i: nat) returns (k: nat)
    requires i < |Log(puts)|
    ensures 1 <= k <= |puts| && Blob(puts[k - 1]).Some? && i == |Log(puts[..k])| - 1
    ensures Log(puts)[i] == Entry(Uri(k), Blob(puts[k - 1]).value)
  {
    var front := puts[..|puts| - 1];
    if i < |Log(front)| {
      k := EntryNumber(front, i);
      assert front[..k] == puts[..k];
    } else {
      k := |puts|;
      assert puts[..k] == puts;
    }
  }

  lemma NewUriIsNew(puts: seq<Frame>, i: nat)
    requires i < |Log(puts)|
    ensures Log(puts)[i].uri != Uri(|puts| + 1)
  {
    var k := EntryNumber(puts, i);
    UrisDiffer(k, |puts| + 1);
  }

  lemma LogSnoc(puts: seq<Frame>, f: Frame)
    ensures Log(puts + [f]) == Log(puts) + (if Blob(f).Some? then [Entry(Uri(|puts| + 1), Blob(f).value)] else [])
  {
    var all := puts + [f];
    assert all[..|puts|] == puts && all[|puts|] == f;
    hide Uri;
    hide WrapFram;
  }

  lemma NewUriInRing(puts: seq<Frame>, n: nat)
    ensures forall e :: e in LastN(Log(puts), n) ==> e.uri != Uri(|puts| + 1)
  {
    forall e | e in LastN(Log(puts), n) ensures e.uri != Uri(|puts| + 1) {
      var i :| 0 <= i < |Log(puts)| && Log(puts)[i] == e;
      NewUriIsNew(puts, i);
    }
  }

  /** The uri of put `k` is in the ring exactly when the put was accepted and fewer than `n` were stored after it. */
  lemma RetainedIff(puts: seq<Frame>, n: nat, k: nat)
    requires 1 <= k <= |puts|
    ensures var ring := LastN(Log(puts), n);
            var kept := Blob(puts[k - 1]).Some? && StoredAfter(puts, k) < n;
            && (kept <==> exists i :: 0 <= i < |ring| && ring[i].uri == Uri(k))
            && (kept ==> Entry(Uri(k), Blob(puts[k - 1]).value) in ring)
  {
    var log, ring := Log(puts), LastN(Log(puts), n);
    var cut := |log| - |ring|;
    assert forall i :: 0 <= i < |ring| ==> ring[i] == log[cut + i];
    forall i | 0 <= i < |ring| && ring[i].uri == Uri(k)
      ensures Blob(puts[k - 1]).Some? && StoredAfter(puts, k) < n
    {
      var l := EntryNumber(puts, cut + i);
      UrisDiffer(k, l);
    }
    if Blob(puts[k - 1]).Some? {
      EntryOf(puts, k);
      var at := |Log(puts[..k])| - 1;
      if StoredAfter(puts, k) < n {
        assert ring[at - cut] == log[at];
      }
    }
  }

  /** The index list and the map hold exactly the entries of `ring`, in its order. */
  ghost predicate Describes(order: seq<string>, blobs: map<string, Bytes>, ring: seq<Entry>) {
    && |order| == |ring|
    && (forall i :: 0 <= i < |order| ==>
        order[i] == ring[i].uri && order[i] in blobs && blobs[order[i]] == ring[i].blob)
    && (forall uri :: uri in blobs ==> uri in order)
  }

  lemma DescribesAppend(order: seq<string>, blobs: map<string, Bytes>, ring: seq<Entry>, e: Entry)
    requires Describes(order, blobs, ring) && NoDuplicates(order) && e.uri !in order
    ensures Describes(order + [e.uri], blobs[e.uri := e.blob], ring + [e]) && NoDuplicates(order + [e.uri])
  {
    forall uri | uri in blobs[e.uri := e.blob] ensures uri in order + [e.uri] {
      assert (order + [e.uri])[|order|] == e.uri;
      if uri != e.uri { assert uri in order; }
    }
  }

  lemma DescribesPop(order: seq<string>, blobs: map<string, Bytes>, ring: seq<Entry>)
    requires Describes(order, blobs, ring) && NoDuplicates(order) && order != []
    ensures Describes(order[1..], blobs - {order[0]}, ring[1..]) && NoDuplicates(order[1..])
  {
    assert order == [order[0]] + order[1..];
  }

  /** Appending an entry and dropping the oldest beyond `n` is taking the last `n` of the longer log. */
  lemma RingStep(order: seq<string>, blobs: map<string, Bytes>, log: seq<Entry>, e: Entry, n: nat)
    requires Describes(order, blobs, LastN(log, n)) && NoDuplicates(order)
    requires forall x :: x in LastN(log, n) ==> x.uri != e.uri
    ensures |order| <= n
    ensures var o, b := order + [e.uri], blobs[e.uri := e.blob];
            if |order| < n then Describes(o, b, LastN(log + [e], n)) && NoDuplicates(o)
            else Describes(o[1..], b - {o[0]}, LastN(log + [e], n)) && NoDuplicates(o[1..])
  {
    var o, b, ring := order + [e.uri], blobs[e.uri := e.blob], LastN(log, n);
    assert e.uri !in order;
    DescribesAppend(order, blobs, ring, e);
    if |order| < n {
      assert LastN(log + [e], n) == ring + [e];
    } else {
      DescribesPop(o, b, ring + [e]);
      assert LastN(log + [e], n) == (ring + [e])[1..];
    }
  }

  datatype JpegResult = Jpeg(bytes: Bytes) | KeyError | NotFram

  /** What the caller gets to know about a stored frame. */
  datatype FrameRef = FrameRef(uri: string, width: int, height: int, ts: int, sourceSeq: nat)

  /** The payload behind a lookup. */
  function JpegOf(blob: Option<Bytes>): JpegResult {
    match blob
    case None => KeyError
    case Some(b) => if UnwrapFram(b).Some? then Jpeg(UnwrapFram(b).value) else NotFram
  }

  /** `blob` is what a lookup of `uri` in the ring gives. */
  ghost predicate LooksUp(ring: seq<Entry>, uri: string, blob: Option<Bytes>) {
    && (forall e :: e in ring && e.uri == uri ==> blob == Some(e.blob))
    && (blob.Some? ==> exists i :: 0 <= i < |ring| && ring[i].uri == uri)
  }

  lemma PayloadReadsBack(f: Frame)
    requires Blob(f).Some?
    ensures JpegOf(Blob(f)) == Jpeg(f.jpeg)
  {
    HeaderRoundTrip(f.jpeg, f.width, f.height, f.ts);
    hide WrapFram;
    hide UnwrapFram;
  }

  /** Put `k` is still in a ring of `n`. */
  predicate Retained(puts: seq<Frame>, n: nat, k: nat)
    requires 1 <= k <= |puts|
  {
    Blob(puts[k - 1]).Some? && StoredAfter(puts, k) < n
  }

  lemma RetainedReadsBack(puts: seq<Frame>, n: nat, k: nat, blob: Option<Bytes>)
    requires 1 <= k <= |puts| && Retained(puts, n, k) && LooksUp(LastN(Log(puts), n), Uri(k), blob)
    ensures JpegOf(blob) == Jpeg(puts[k - 1].jpeg)
  {
    RetainedIff(puts, n, k);
    hide Log;
    hide LastN;
    hide Uri;
    hide JpegOf;
    hide StoredAfter;
    assert blob == Some(Blob(puts[k - 1]).value);
    PayloadReadsBack(puts[k - 1]);
  }

  lemma ReleasedIsMissing(puts: seq<Frame>, n: nat, k: nat, blob: Option<Bytes>)
    requires 1 <= k <= |puts| && !Retained(puts, n, k) && LooksUp(LastN(Log(puts), n), Uri(k), blob)
    ensures JpegOf(blob) == KeyError
  {
    RetainedIff(puts, n, k);
    hide Log;
    hide LastN;
    hide Uri;
    hide Blob;
    hide StoredAfter;
    assert blob == None;
  }

  class InMemoryFrameStore {
    var blobs: map<string, Bytes>
    var order: seq<string>
    var seqNo: nat
    const capacity: int
    /** The puts so far. */
    ghost var puts: seq<Frame>

    /** A negative capacity keeps nothing, like 0. */
    ghost function Kept(): nat {
      if capacity < 0 then 0 else capacity
    }

    /** The latest `capacity` entries of the full log. */
    ghost function Ring(): seq<Entry>
      reads this
    {
      LastN(Log(puts), Kept())
    }

    /** The list and the map describe the same distinct uris, and those are the ring. */
    ghost predicate Valid()
      reads this
    {
      seqNo == |puts| && Describes(order, blobs, Ring()) && NoDuplicates(order)
    }

    constructor (capacity: int)
      ensures Valid() && this.capacity == capacity && puts == []
    {
      this.capacity := capacity;
      blobs, order, seqNo, puts := map[], [], 0, [];
    }

    /** Returns the reference to the stored frame, or None when the header cannot be packed. */
    method Put(f: Frame) returns (ref: Option<FrameRef>)
      requires Valid()
      modifies this
      ensures Valid() && puts == old(puts) + [f]
      ensures ref == if Packable(f.width, f.height, f.ts)
                     then Some(FrameRef(Uri(|puts|), f.width, f.height, f.ts, |puts|)) else None
    {
      hide Describes;
      hide NoDuplicates;
      hide LastN;
      hide Log;
      ghost var before := puts;
      NewUriInRing(before, Kept());
      hide Uri;
      seqNo := seqNo + 1;
      puts := puts + [f];
      LogSnoc(before, f);
      var name, blob := Uri(seqNo), WrapFram(f.jpeg, f.width, f.height, f.ts);
      hide WrapFram;
      if blob.None? {
        assert Log(puts) == Log(before);
        return None;
      }
      RingStep(order, blobs, Log(before), Entry(name, blob.value), Kept());
      blobs := blobs[name := blob.value];
      order := order + [name];
      if |order| > capacity {
        var oldest := order[0];
        order := order[1..];
        blobs := blobs - {oldest};
      }
      return Some(FrameRef(name, f.width, f.height, f.ts, seqNo));
    }

    method Get(uri: string) returns (blob: Option<Bytes>)
      requires Valid()
      ensures LooksUp(Ring(), uri, blob)
    {
      if uri in blobs { return Some(blobs[uri]); }
      return None;
    }

    /** For every put so far: its own bytes while it is retained, and a missing key otherwise. */
    method GetJpeg(uri: string) returns (r: JpegResult)
      requires Valid()
      ensures forall k :: 1 <= k <= |puts| && uri == Uri(k) ==>
        r == if Retained(puts, Kept(), k) then Jpeg(puts[k - 1].jpeg) else KeyError
    {
      var blob := Get(uri);
      if blob.None? {
        r := KeyError;
      } else {
        var payload := UnwrapFram(blob.value);
        r := if payload.Some? then Jpeg(payload.value) else NotFram;
      }
      assert r == JpegOf(blob);
      hide JpegOf;
      hide LooksUp;
      hide Uri;
      hide Retained;
      forall k | 1 <= k <= |puts| && uri == Uri(k)
        ensures r == if Retained(puts, Kept(), k) then Jpeg(puts[k - 1].jpeg) else KeyError
      {
        if Retained(puts, Kept(), k) {
          RetainedReadsBack(puts, Kept(), k, blob);
        } else {
          ReleasedIsMissing(puts, Kept(), k, blob);
        }
      }
    }
  }
}
