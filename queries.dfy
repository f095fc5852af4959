/**
 * Merging query parameters: the call-time parameters are updated with the
 * client's persistent ones, so on a shared name the persistent value wins.
 */
module Queries {
  import opened Http

  /** `call` updated in place with the entries of `persistent`. */
  function Merge(call: Query, persistent: Query): (r: Query)
    ensures r.Keys == call.Keys + persistent.Keys
    ensures forall k :: k in persistent ==> r[k] == persistent[k]
    ensures forall k :: k in call && k !in persistent ==> r[k] == call[k]
  {
    call + persistent
  }

  /** With no persistent parameters the call-time parameters are sent as they are. */
  lemma MergeEmpty(call: Query)
    ensures Merge(call, map[]) == call
  {
  }

  /**
   * Updating again with the same persistent parameters changes nothing, as
   * when a hook merges parameters the client has already merged.
   */
  lemma MergeIdempotent(call: Query, persistent: Query)
    ensures Merge(Merge(call, persistent), persistent) == Merge(call, persistent)
  {
  }
}
