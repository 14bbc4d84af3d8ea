/** The `data['pending']` entries of `bot.py` and the search `approve` runs over them. */
module Pending {
  import opened Wrappers

  /** `{'user_id': ..., 'product_id': ..., 'file_id': ...}`: one submitted payment proof. */
  datatype PendingEntry = PendingEntry(userId: int, productId: string, fileId: string)

  /** The test `approve` applies to each entry; the proof's file id plays no part. */
  predicate Matches(e: PendingEntry, uid: int, pid: string) {
    e.userId == uid && e.productId == pid
  }

  /** The index of the first entry for `(uid, pid)`, or `None` when there is none. */
  function FirstMatch(pending: seq<PendingEntry>, uid: int, pid: string): (r: Option<nat>)
    ensures r.Some? ==> r.value < |pending| && Matches(pending[r.value], uid, pid)
    ensures r.Some? ==> forall j :: 0 <= j < r.value ==> !Matches(pending[j], uid, pid)
    ensures r.None? <==> forall j :: 0 <= j < |pending| ==> !Matches(pending[j], uid, pid)
  {
    if |pending| == 0 then
      None
    else if Matches(pending[0], uid, pid) then
      Some(0)
    else
      match FirstMatch(pending[1..], uid, pid)
      case None =>
        assert forall j :: 1 <= j < |pending| ==> pending[j] == pending[1..][j - 1];
        None
      case Some(k) =>
        assert forall j :: 1 <= j <= k ==> pending[j] == pending[1..][j - 1];
        Some(k + 1)
  }

  /**
   * Resolving the first entry for a pair leaves any later entry for the same
   * pair pending: one approval resolves one submission.
   */
  lemma LaterDuplicateSurvives(pending: seq<PendingEntry>, uid: int, pid: string, k: nat)
    requires FirstMatch(pending, uid, pid).Some?
    requires FirstMatch(pending, uid, pid).value < k < |pending| && Matches(pending[k], uid, pid)
    ensures var i := FirstMatch(pending, uid, pid).value;
      var rest := pending[..i] + pending[i + 1..];
      rest[k - 1] == pending[k] && FirstMatch(rest, uid, pid).Some? && FirstMatch(rest, uid, pid).value <= k - 1
  {
  }
}
