/** The scan of the "resize" list that the disk-resize handler performs each time it runs:
    entries are examined in list order from the first; the first entry whose disk is smaller
    than its target is the one to resize, and an entry that cannot be decoded, or names a disk
    that does not exist, stops the scan with an error. */
module ResizeScan {
  import opened FixedWidth
  import opened TaskTypes

  datatype ScanOutcome =
    | ResizeNext(index: nat, diskId: string, size: Int64)
    | AllSatisfied
    | ScanFailed(index: nat, reason: string)

  /** The entry names an existing disk that is strictly smaller than its target. */
  predicate NeedsGrowth(e: ResizeEntry, disks: map<string, int>) {
    e.Resize? && e.diskId in disks && disks[e.diskId] < e.size
  }

  /** The entry names an existing disk that is already at least as large as its target. */
  predicate Satisfied(e: ResizeEntry, disks: map<string, int>) {
    e.Resize? && e.diskId in disks && e.size <= disks[e.diskId]
  }

  /** How far a scan got: the index it stopped at, or the length of the list. */
  function Reached(r: ScanOutcome, n: nat): nat {
    if r.AllSatisfied? then n else r.index
  }

  /** The scan from position k on. */
  function ScanFrom(entries: seq<ResizeEntry>, disks: map<string, int>, k: nat): (r: ScanOutcome)
    requires k <= |entries|
    decreases |entries| - k
    ensures k <= Reached(r, |entries|) <= |entries|
    ensures !r.AllSatisfied? ==> r.index < |entries|
    ensures forall j :: k <= j < Reached(r, |entries|) ==> Satisfied(entries[j], disks)
    ensures r.ResizeNext? ==>
      entries[r.index] == Resize(r.diskId, r.size) && NeedsGrowth(entries[r.index], disks)
    ensures r.ScanFailed? ==>
      !NeedsGrowth(entries[r.index], disks) && !Satisfied(entries[r.index], disks)
  {
    if k == |entries| then AllSatisfied
    else
      match entries[k]
      case MalformedEntry(err) => ScanFailed(k, err)
      case Resize(id, size) =>
        if id !in disks then ScanFailed(k, DiskNotFound(id))
        else if disks[id] < size then ResizeNext(k, id, size)
        else ScanFrom(entries, disks, k + 1)
  }

  function Scan(entries: seq<ResizeEntry>, disks: map<string, int>): ScanOutcome {
    ScanFrom(entries, disks, 0)
  }

  /** The loop of the disk-resize handler, without the dispatch it ends with: it walks the
      list from index 0 and stops at the first entry that fails or needs growth. */
  method SelectResize(entries: seq<ResizeEntry>, disks: map<string, int>) returns (r: ScanOutcome)
    ensures r == Scan(entries, disks)
  {
    var i := 0;
    while i < |entries|
      invariant 0 <= i <= |entries|
      invariant ScanFrom(entries, disks, i) == Scan(entries, disks)
    {
      match entries[i]
      case MalformedEntry(err) =>
        return ScanFailed(i, err);
      case Resize(id, size) =>
        if id !in disks {
          return ScanFailed(i, DiskNotFound(id));
        }
        if disks[id] < size {
          return ResizeNext(i, id, size);
        }
      i := i + 1;
    }
    return AllSatisfied;
  }

  /** Entries that are already satisfied are passed over without effect. */
  lemma {:induction false} ScanSkipsSatisfied(entries: seq<ResizeEntry>, disks: map<string, int>, k: nat, m: nat)
    requires k <= m <= |entries|
    requires forall j :: k <= j < m ==> Satisfied(entries[j], disks)
    ensures ScanFrom(entries, disks, k) == ScanFrom(entries, disks, m)
    decreases m - k
  {
    if k < m {
      assert Satisfied(entries[k], disks);
      ScanSkipsSatisfied(entries, disks, k + 1, m);
    }
  }

  /** No resize is needed and nothing fails exactly when every entry is already satisfied. */
  lemma {:induction false} AllSatisfiedIff(entries: seq<ResizeEntry>, disks: map<string, int>)
    ensures Scan(entries, disks).AllSatisfied? <==>
      forall j :: 0 <= j < |entries| ==> Satisfied(entries[j], disks)
  {
    if forall j :: 0 <= j < |entries| ==> Satisfied(entries[j], disks) {
      ScanSkipsSatisfied(entries, disks, 0, |entries|);
    }
  }

  /** The entry chosen for resizing is the first in list order that needs growth, and an entry
      whose target does not exceed its disk's size is never chosen. */
  lemma ResizeNextIsFirstShortfall(entries: seq<ResizeEntry>, disks: map<string, int>, j: nat)
    requires j < |entries|
    requires Scan(entries, disks).ResizeNext?
    ensures NeedsGrowth(entries[Scan(entries, disks).index], disks)
    ensures j < Scan(entries, disks).index ==> !NeedsGrowth(entries[j], disks)
    ensures Satisfied(entries[j], disks) ==> Scan(entries, disks).index != j
  {
  }

  /** The disks have only grown from `disks` to `disks2`. */
  predicate GrownFrom(disks: map<string, int>, disks2: map<string, int>) {
    forall id :: id in disks ==> id in disks2 && disks[id] <= disks2[id]
  }

  /** Once the chosen disk has reached its target, and no disk has shrunk, the re-scan from the
      start of the list gets strictly further than the previous scan. */
  lemma {:induction false} RescanProgress(entries: seq<ResizeEntry>, disks: map<string, int>, disks2: map<string, int>)
    requires Scan(entries, disks).ResizeNext?
    requires GrownFrom(disks, disks2)
    requires Scan(entries, disks).diskId in disks2
    requires Scan(entries, disks).size <= disks2[Scan(entries, disks).diskId]
    ensures Reached(Scan(entries, disks2), |entries|) > Scan(entries, disks).index
  {
    var i := Scan(entries, disks).index;
    forall j | 0 <= j <= i
      ensures Satisfied(entries[j], disks2)
    {
      if j < i {
        assert Satisfied(entries[j], disks);
      }
    }
    ScanSkipsSatisfied(entries, disks2, 0, i + 1);
  }

  /** A sequence of rounds, each of which resizes the disk its scan chose to at least its
      target while no disk shrinks, is at most as long as the list: the handler is re-entered
      at most once per entry before it moves on. */
  lemma {:induction false} ResizeRoundsBounded(entries: seq<ResizeEntry>, rounds: seq<map<string, int>>)
    requires |rounds| >= 1
    requires forall t :: 0 <= t < |rounds| - 1 ==> ResizedNext(entries, rounds[t], rounds[t + 1])
    ensures |rounds| - 1 <= |entries|
  {
    if |rounds| > 1 {
      RoundsAdvance(entries, rounds, |rounds| - 2);
    }
  }

  /** The step from one round's disks to the next: the scan chose a disk, which then grew to at
      least its target, and no disk shrank. */
  predicate ResizedNext(entries: seq<ResizeEntry>, disks: map<string, int>, disks2: map<string, int>) {
    var r := Scan(entries, disks);
    r.ResizeNext? && GrownFrom(disks, disks2) && r.diskId in disks2 && r.size <= disks2[r.diskId]
  }

  lemma {:induction false} RoundsAdvance(entries: seq<ResizeEntry>, rounds: seq<map<string, int>>, t: nat)
    requires t < |rounds| - 1
    requires forall u :: 0 <= u < |rounds| - 1 ==> ResizedNext(entries, rounds[u], rounds[u + 1])
    ensures Scan(entries, rounds[t]).ResizeNext? && Scan(entries, rounds[t]).index >= t
  {
    assert ResizedNext(entries, rounds[t], rounds[t + 1]);
    if t > 0 {
      RoundsAdvance(entries, rounds, t - 1);
      assert ResizedNext(entries, rounds[t - 1], rounds[t]);
      RescanProgress(entries, rounds[t - 1], rounds[t]);
    }
  }
}
