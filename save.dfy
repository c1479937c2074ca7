/**
 The save loop of `MetaDataZaKo.run`: one result record per frame that was
 written, the counter advancing only after a successful write.
 */
module Save {
  import opened Naming

  /** The record returned to the host's UI for a saved frame. */
  datatype SaveRecord = SaveRecord(filename: string, subfolder: string, kind: string)

  /** The number of frames whose write succeeded. */
  function CountTrue(saved: seq<bool>): (r: nat)
    ensures r <= |saved|
  {
    if saved == [] then 0
    else CountTrue(saved[..|saved| - 1]) + (if saved[|saved| - 1] then 1 else 0)
  }

  /** Records named with consecutive counters have pairwise distinct names. */
  lemma DistinctNames(base: string, subfolder: string, kind: string, counter: nat, results: seq<SaveRecord>)
    requires forall j :: 0 <= j < |results| ==>
               results[j] == SaveRecord(FileName(base, counter + j), subfolder, kind)
    ensures forall i, j :: 0 <= i < j < |results| ==> results[i].filename != results[j].filename
  {
    forall i, j | 0 <= i < j < |results|
      ensures results[i].filename != results[j].filename
    {
      if results[i].filename == results[j].filename {
        FileNameInjective(base, counter + i, counter + j);
      }
    }
  }

  /** Writes each frame in order; `saved[i]` says whether frame `i` could be
      converted and written. A failed frame consumes no counter value and
      leaves no record. */
  method SaveBatch(base: string, subfolder: string, kind: string, counter: nat, saved: seq<bool>)
    returns (results: seq<SaveRecord>, next: nat)
    ensures |results| == CountTrue(saved) && |results| <= |saved|
    ensures next == counter + |results|
    ensures forall j :: 0 <= j < |results| ==>
              results[j] == SaveRecord(FileName(base, counter + j), subfolder, kind)
    ensures forall i, j :: 0 <= i < j < |results| ==> results[i].filename != results[j].filename
  {
    results, next := [], counter;
    for batchNumber := 0 to |saved|
      invariant |results| == CountTrue(saved[..batchNumber])
      invariant next == counter + |results|
      invariant forall j :: 0 <= j < |results| ==>
                  results[j] == SaveRecord(FileName(base, counter + j), subfolder, kind)
    {
      assert saved[..batchNumber + 1][..batchNumber] == saved[..batchNumber];
      if saved[batchNumber] {
        var fileName := FileName(base, next);
        ghost var before := results;
        results := results + [SaveRecord(fileName, subfolder, kind)];
        assert forall j :: 0 <= j < |before| ==> results[j] == before[j];
        next := next + 1;
      }
    }
    assert saved[..|saved|] == saved;
    DistinctNames(base, subfolder, kind, counter, results);
  }
}
