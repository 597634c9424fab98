/**
 * The invoice lookup of the search tab: the rows whose invoice number, as a
 * string, contains the typed query, ignoring case.
 */
module Lookup {
  import opened Records

  /** ASCII lower-casing of one character. */
  function LowerChar(c: char): char {
    if 'A' <= c <= 'Z' then (c as int + 32) as char else c
  }

  function Lower(s: string): string {
    seq(|s|, i requires 0 <= i < |s| => LowerChar(s[i]))
  }

  /** `pat` occurs in `s` starting at position `k`. */
  predicate OccursAt(pat: string, s: string, k: int) {
    0 <= k && k + |pat| <= |s| && s[k..k + |pat|] == pat
  }

  /** The reference meaning of containment: `pat` occurs somewhere in `s`. */
  ghost predicate Contains(s: string, pat: string) {
    exists k :: OccursAt(pat, s, k)
  }

  /** Searches for `pat` in `s` at the positions from `k` on. */
  function OccursFrom(pat: string, s: string, k: nat): (found: bool)
    ensures found <==> exists j :: k <= j && OccursAt(pat, s, j)
    decreases |s| - k
  {
    if k + |pat| > |s| then
      assert forall j :: k <= j ==> !OccursAt(pat, s, j);
      false
    else if s[k..k + |pat|] == pat then
      assert OccursAt(pat, s, k);
      true
    else
      OccursFrom(pat, s, k + 1)
  }

  /** `str(Numero).str.contains(query, case=False)`. */
  predicate Matches(r: Record, query: string) {
    OccursFrom(Lower(query), Lower(r.numero), 0)
  }

  /** The rows of `table` whose number contains the query. */
  function Search(table: seq<Record>, query: string): seq<Record> {
    Filter(table, r => Matches(r, query))
  }

  /** A row is found exactly when its number contains the query, up to case; the order of the table is kept. */
  lemma SearchCorrect(table: seq<Record>, query: string)
    ensures forall r :: r in Search(table, query) <==> r in table && Contains(Lower(r.numero), Lower(query))
    ensures IsSubsequence(Search(table, query), table)
  {
    FilterMembers(table, r => Matches(r, query));
    FilterIsSubsequence(table, r => Matches(r, query));
  }

  /** A row is found by its full number, by any part of it, and by either case of it. */
  lemma FoundByPart(r: Record, i: nat, j: nat)
    requires i <= j <= |r.numero|
    ensures Matches(r, r.numero[i..j])
    ensures Matches(r, Lower(r.numero))
  {
    var low := Lower(r.numero);
    assert Lower(r.numero[i..j]) == low[i..j];
    assert OccursAt(Lower(r.numero[i..j]), low, i);
    assert Lower(low) == low;
    assert OccursAt(Lower(low), low, 0);
  }

  /** A query longer than the number finds nothing. */
  lemma LongQueryFindsNothing(table: seq<Record>, query: string)
    requires forall r :: r in table ==> |r.numero| < |query|
    ensures Search(table, query) == []
  {
    SearchCorrect(table, query);
  }
}
