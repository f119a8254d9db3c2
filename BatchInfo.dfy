/**
 * The batch information attached to WebSocket messages sent as part of a
 * group (websocket/dto/BatchInfo.java): its three factories, and what they
 * say about which item closes the batch.
 *
 * Every field is a boxed Java value and may be null (`None`). The
 * factories' `int` parameters are Java ints, and `batchSize - 1` is `int`
 * arithmetic.
 */
module BatchInfoDto {
  import opened Common

  datatype BatchInfo = BatchInfo(
    batchId: Option<string>,
    batchSize: Option<int>,
    batchIndex: Option<int>,
    isLastInBatch: Option<bool>,
    processingMode: Option<string>,
    expectedCompletionTime: Option<string>,
    metadata: Option<JavaObject>)

  const BulkUpdate := "BULK_UPDATE"

  /**
   * `forItem`: the id, size, index and mode as given; the item is last
   * exactly when its index is the size minus one.
   */
  function ForItem(batchId: Option<string>, batchSize: JavaInt, batchIndex: JavaInt, processingMode: Option<string>): (b: BatchInfo)
    ensures b.batchId == batchId && b.batchSize == Some(batchSize as int) && b.batchIndex == Some(batchIndex as int)
    ensures b.processingMode == processingMode
    ensures b.isLastInBatch.Some?
    ensures batchSize > IntMin ==> (b.isLastInBatch.value <==> batchIndex == batchSize - 1)
    ensures b.expectedCompletionTime.None? && b.metadata.None?
  {
    BatchInfo(batchId, Some(batchSize as int), Some(batchIndex as int), Some(batchIndex == Wrap32(batchSize - 1)),
              processingMode, None, None)
  }

  /** `forLastItem`: the item at index `batchSize - 1`, which is always marked last. */
  function ForLastItem(batchId: Option<string>, batchSize: JavaInt, processingMode: Option<string>): (b: BatchInfo)
    ensures b.isLastInBatch == Some(true)
    ensures b.batchId == batchId && b.batchSize == Some(batchSize as int) && b.processingMode == processingMode
    ensures batchSize > IntMin ==> b.batchIndex == Some(batchSize - 1)
  {
    ForItem(batchId, batchSize, Wrap32(batchSize - 1), processingMode)
  }

  /** `forBulkUpdate`: the whole batch in one message, index 0, last, in BULK_UPDATE mode, with the metadata. */
  function ForBulkUpdate(batchId: Option<string>, batchSize: JavaInt, metadata: Option<JavaObject>): (b: BatchInfo)
    ensures b.batchIndex == Some(0) && b.isLastInBatch == Some(true) && b.processingMode == Some(BulkUpdate)
    ensures b.batchId == batchId && b.batchSize == Some(batchSize as int) && b.metadata == metadata
    ensures b.expectedCompletionTime.None?
  {
    BatchInfo(batchId, Some(batchSize as int), Some(0), Some(true), Some(BulkUpdate), None, metadata)
  }

  /** The batch information of every item of a batch of `n`, in order. */
  function ForBatch(batchId: Option<string>, n: JavaInt, processingMode: Option<string>): (r: seq<BatchInfo>)
    requires n >= 0
    ensures |r| == n
    ensures forall i :: 0 <= i < n ==> r[i] == ForItem(batchId, n, i, processingMode)
  {
    seq(n, (i: int) requires 0 <= i < n => ForItem(batchId, n, i as JavaInt, processingMode))
  }

  /** In a non-empty batch exactly one item, the final one, is marked last. */
  lemma OnlyFinalItemIsLast(batchId: Option<string>, n: JavaInt, processingMode: Option<string>)
    requires n >= 1
    ensures ForBatch(batchId, n, processingMode)[n - 1].isLastInBatch == Some(true)
    ensures forall i :: 0 <= i < n - 1 ==> ForBatch(batchId, n, processingMode)[i].isLastInBatch == Some(false)
  {
  }

  /** `forLastItem` is `forItem` at the final index. */
  lemma LastItemIsFinalItem(batchId: Option<string>, n: JavaInt, processingMode: Option<string>)
    requires n >= 1
    ensures ForLastItem(batchId, n, processingMode) == ForBatch(batchId, n, processingMode)[n - 1]
  {
  }
}
