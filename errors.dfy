/** A stored error as the browser reads it back from the store, and the text that stands for
    it in the list. */
module Errors {

  /** One stored error: its row id, when it was stored, its first line and its whole block. */
  datatype Error = Error(id: int, errorDatetime: string, shortError: string, fullError: string)

  const Separator := ": "

  /** `getListText`: the time stamp, a colon and a space, then the first line of the error. */
  function ListText(e: Error): (r: string)
    ensures |r| == |e.errorDatetime| + |Separator| + |e.shortError|
    ensures r[..|e.errorDatetime|] == e.errorDatetime
    ensures r[|e.errorDatetime|..|e.errorDatetime| + |Separator|] == Separator
    ensures r[|e.errorDatetime| + |Separator|..] == e.shortError
  {
    e.errorDatetime + Separator + e.shortError
  }

  /** Time stamps are written in one fixed format, so they all have the same length; then the
      list text determines both the time stamp and the first line, and two errors share a list
      text exactly when they share both. */
  lemma ListTextDetermines(a: Error, b: Error)
    requires |a.errorDatetime| == |b.errorDatetime|
    ensures ListText(a) == ListText(b) <==>
      a.errorDatetime == b.errorDatetime && a.shortError == b.shortError
  {
    if ListText(a) == ListText(b) {
      var n := |a.errorDatetime|;
      assert a.errorDatetime == ListText(a)[..n] == ListText(b)[..n] == b.errorDatetime;
      assert a.shortError == ListText(a)[n + 2..] == ListText(b)[n + 2..] == b.shortError;
    }
  }
}
