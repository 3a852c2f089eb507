/** Joining texts, as Go's strings.Join does with "." for the separator. */
module Strings {
  import opened Common

  datatype Dotted = Dotted(text: seq<Byte>)

  /** The first `n` texts with a dot between each two. */
  function Joined(texts: seq<Dotted>, n: nat): seq<Byte>
    requires n <= |texts|
  {
    if n == 0 then []
    else if n == 1 then texts[0].text
    else Joined(texts, n - 1) + ['.' as int] + texts[n - 1].text
  }

  /** Where text `k` starts: behind all those before it and a dot for each. */
  function StartOf(texts: seq<Dotted>, k: nat): nat
    requires k <= |texts|
  {
    if k == 0 then 0 else StartOf(texts, k - 1) + |texts[k - 1].text| + 1
  }

  lemma Parts(a: seq<Byte>, d: Byte, b: seq<Byte>, i: nat)
    ensures |a + [d] + b| == |a| + 1 + |b| && (a + [d] + b)[|a|] == d
    ensures i < |a| ==> (a + [d] + b)[i] == a[i]
    ensures i < |b| ==> (a + [d] + b)[|a| + 1 + i] == b[i]
  {
  }

  /** The joined text is as long as the texts and the dots between them. */
  lemma {:induction false} JoinedLength(texts: seq<Dotted>, n: nat)
    requires 0 < n <= |texts|
    ensures |Joined(texts, n)| == StartOf(texts, n) - 1
  {
    if n > 1 {
      JoinedLength(texts, n - 1);
    } else {
      assert StartOf(texts, 0) == 0;
    }
  }

  lemma {:induction false} StartsAscend(texts: seq<Dotted>, k: nat, n: nat)
    requires k < n <= |texts|
    ensures StartOf(texts, k) + |texts[k].text| < StartOf(texts, n)
  {
    if k < n - 1 {
      StartsAscend(texts, k, n - 1);
    }
  }

  /** Every byte of every text stands in its place. */
  lemma {:induction false} ByteInPlace(texts: seq<Dotted>, n: nat, k: nat, j: nat)
    requires k < n <= |texts| && j < |texts[k].text|
    ensures StartOf(texts, k) + j < |Joined(texts, n)|
    ensures Joined(texts, n)[StartOf(texts, k) + j] == texts[k].text[j]
  {
    if n > 1 {
      JoinedLength(texts, n - 1);
      if k < n - 1 {
        ByteInPlace(texts, n - 1, k, j);
        Parts(Joined(texts, n - 1), '.' as int, texts[n - 1].text, StartOf(texts, k) + j);
      } else {
        Parts(Joined(texts, n - 1), '.' as int, texts[n - 1].text, j);
      }
    }
  }

  /** And every text but the first has a dot before it. */
  lemma {:induction false} DotBefore(texts: seq<Dotted>, n: nat, k: nat)
    requires 0 < k < n <= |texts|
    ensures 0 < StartOf(texts, k) <= |Joined(texts, n)|
    ensures Joined(texts, n)[StartOf(texts, k) - 1] == 46
  {
    JoinedLength(texts, n - 1);
    StartsAscend(texts, 0, k);
    if k < n - 1 {
      DotBefore(texts, n - 1, k);
      StartsAscend(texts, k, n - 1);
      Parts(Joined(texts, n - 1), '.' as int, texts[n - 1].text, StartOf(texts, k) - 1);
    } else {
      Parts(Joined(texts, n - 1), '.' as int, texts[n - 1].text, 0);
    }
  }
}
