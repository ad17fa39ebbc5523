/** Small definitions shared by every module. */
module Common {

  datatype Option<+T> = None | Some(value: T)

  datatype Result<+R, +E> = Ok(value: R) | Err(error: E)

  /** The identity of one refreshable catalog: a Rutgers term at one campus. */
  datatype TermCampusKey = TermCampusKey(term: string, campus: string)

  const U64_MAX: nat := 0xffff_ffff_ffff_ffff

  const USIZE_MAX: nat := U64_MAX

  const U32_MAX: nat := 0xffff_ffff

  lemma {:induction false} DistinctCounts<T>(s: seq<T>, x: T)
    requires forall i, j | 0 <= i < j < |s| :: s[i] != s[j]
    ensures multiset(s)[x] == if x in s then 1 else 0
  {
    if s != [] {
      var n := |s| - 1;
      assert s == s[..n] + [s[n]];
      DistinctCounts(s[..n], x);
    }
  }
}
