/**
 * One row of the "Base" sheet, with the columns the dashboard's logic reads,
 * and the row-selection operations the source performs with boolean masks.
 */
module Records {
  import opened Wrappers
  import opened Dates

  /** A cell of the `Nr Romaneio` column. */
  datatype RomaneioCell =
    | NoRomaneio                 // NaN or None
    | RomaneioText(text: string)
    | RomaneioInt(whole: int)
    | RomaneioFloat(number: real)

  datatype Record = Record(
    numero: string,                 // str(Numero): the invoice number as the lookup sees it
    bu: Option<string>,             // Unid Negoc
    carrier: Option<string>,        // Transportador
    implantacao: DateCell,          // Dt Implant Ped
    nota: DateCell,                 // Dt Nota Fiscal
    saida: DateCell,                // Data de Saída
    previsao: DateCell,             // Previsão de Entrega
    entrega: DateCell,              // Data de Entrega
    diasFaturamento: Option<real>,  // Dias Faturamento
    leadTime: Option<real>,         // Lead Time
    romaneio: RomaneioCell          // Nr Romaneio
  )

  /** `frame[mask]`: the rows for which `keep` holds, in their original order. */
  function Filter<T>(s: seq<T>, keep: T -> bool): (r: seq<T>)
    ensures |r| <= |s|
    ensures forall i :: 0 <= i < |r| ==> keep(r[i])
  {
    if s == [] then []
    else (if keep(s[0]) then [s[0]] else []) + Filter(s[1..], keep)
  }

  /** `a` is `b` with some elements left out, the rest in their order. */
  predicate IsSubsequence<T(==)>(a: seq<T>, b: seq<T>)
    decreases |b|
  {
    if a == [] then true
    else if b == [] then false
    else if a[0] == b[0] then IsSubsequence(a[1..], b[1..])
    else IsSubsequence(a, b[1..])
  }

  /** No element occurs twice. */
  predicate Distinct<T(==)>(s: seq<T>) {
    forall i, j :: 0 <= i < j < |s| ==> s[i] != s[j]
  }

  lemma {:induction false} FilterMembers<T>(s: seq<T>, keep: T -> bool)
    ensures forall x :: x in Filter(s, keep) <==> x in s && keep(x)
  {
    if s != [] {
      FilterMembers(s[1..], keep);
      assert s == [s[0]] + s[1..];
    }
  }

  lemma {:induction false} FilterIsSubsequence<T>(s: seq<T>, keep: T -> bool)
    ensures IsSubsequence(Filter(s, keep), s)
  {
    if s != [] {
      FilterIsSubsequence(s[1..], keep);
      var rest := Filter(s[1..], keep);
      if keep(s[0]) {
        assert Filter(s, keep) == [s[0]] + rest;
        assert ([s[0]] + rest)[1..] == rest;
      } else {
        assert Filter(s, keep) == rest;
        SubsequenceOfTail(rest, s);
      }
    }
  }

  lemma {:induction false} SubsequenceOfTail<T>(a: seq<T>, b: seq<T>)
    requires b != [] && IsSubsequence(a, b[1..])
    ensures IsSubsequence(a, b)
    decreases |b|, 0
  {
    if a != [] && a[0] == b[0] {
      SubsequenceDropFirst(a, b[1..]);
    }
  }

  lemma {:induction false} SubsequenceDropFirst<T>(a: seq<T>, b: seq<T>)
    requires a != [] && IsSubsequence(a, b)
    ensures IsSubsequence(a[1..], b)
    decreases |b|, 1
  {
    if a[0] == b[0] {
      SubsequenceOfTail(a[1..], b);
    } else {
      SubsequenceDropFirst(a, b[1..]);
      SubsequenceOfTail(a[1..], b);
    }
  }

  /** A mask that holds on every row keeps the frame as it is. */
  lemma {:induction false} FilterKeepsAll<T>(s: seq<T>, keep: T -> bool)
    requires forall i :: 0 <= i < |s| ==> keep(s[i])
    ensures Filter(s, keep) == s
  {
    if s != [] {
      FilterKeepsAll(s[1..], keep);
    }
  }

  /** A column assignment: `f` applied to every row, in order. */
  function Map<T, U>(s: seq<T>, f: T -> U): (r: seq<U>)
    ensures |r| == |s|
    ensures forall i :: 0 <= i < |s| ==> r[i] == f(s[i])
  {
    if s == [] then [] else [f(s[0])] + Map(s[1..], f)
  }

  /** A mask that cannot tell a row from its image under `f` selects as many rows after `f` as before. */
  lemma {:induction false} FilterMapCount<T, U>(s: seq<T>, f: T -> U, p: U -> bool, q: T -> bool)
    requires forall x :: p(f(x)) == q(x)
    ensures |Filter(Map(s, f), p)| == |Filter(s, q)|
  {
    if s != [] {
      FilterMapCount(s[1..], f, p, q);
      assert Map(s, f)[1..] == Map(s[1..], f);
    }
  }

  /** Applying two masks one after the other is applying their conjunction. */
  lemma {:induction false} FilterTwice<T>(s: seq<T>, p: T -> bool, q: T -> bool, pq: T -> bool)
    requires forall x :: pq(x) == (p(x) && q(x))
    ensures Filter(Filter(s, p), q) == Filter(s, pq)
  {
    if s != [] {
      FilterTwice(s[1..], p, q, pq);
      var rest := Filter(s[1..], p);
      if p(s[0]) {
        assert Filter(s, p) == [s[0]] + rest;
        assert ([s[0]] + rest)[1..] == rest;
      } else {
        assert Filter(s, p) == rest;
      }
    }
  }

  /** When every row of a mask meets exactly one of two conditions, the mask's rows split between them. */
  lemma {:induction false} FilterPartition<T>(s: seq<T>, p: T -> bool, a: T -> bool, b: T -> bool)
    requires forall x :: p(x) == (a(x) || b(x))
    requires forall x :: !(a(x) && b(x))
    ensures |Filter(s, p)| == |Filter(s, a)| + |Filter(s, b)|
  {
    if s != [] {
      FilterPartition(s[1..], p, a, b);
    }
  }

  /** Masks that agree on every row of the table select the same rows. */
  lemma {:induction false} FilterSameOn<T>(s: seq<T>, p: T -> bool, q: T -> bool)
    requires forall i :: 0 <= i < |s| ==> p(s[i]) == q(s[i])
    ensures Filter(s, p) == Filter(s, q)
  {
    if s != [] {
      FilterSameOn(s[1..], p, q);
    }
  }
}
