/** Document identifiers issued by the document store. */
module ObjectIds {

  /**
   * The n-th identifier a collection issues. Only the distinctness of
   * identifiers matters to the model, so the n-th one is any non-empty
   * string that no other index yields; here its length tells n apart.
   */
  function ObjectId(n: nat): (id: string)
    ensures |id| == n + 1
  {
    seq(n + 1, _ => 'f')
  }
}
