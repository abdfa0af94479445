/** Sequence operations shared by the form handlers. */
module Lists {

  /** `a` is `b` with some elements left out, the rest in their order. */
  predicate IsSubsequence<T(==)>(a: seq<T>, b: seq<T>)
    decreases |b|
  {
    a == [] || (b != [] && ((a[0] == b[0] && IsSubsequence(a[1..], b[1..])) || IsSubsequence(a, b[1..])))
  }

  /** No value occurs twice. */
  predicate Distinct<T(==)>(s: seq<T>) {
    forall i, j :: 0 <= i < j < |s| ==> s[i] != s[j]
  }

  /** `list.filter((_, i) => i !== index)`: the list without position `index`. */
  function RemoveIndex<T>(s: seq<T>, index: int): (r: seq<T>)
    decreases |s|
  {
    if s == [] then []
    else (if index == 0 then [] else [s[0]]) + RemoveIndex(s[1..], index - 1)
  }

  /** Removing index `i` drops exactly that element and keeps the rest in
      order; an index outside the list changes nothing. */
  lemma {:induction false} RemoveIndexMeaning<T>(s: seq<T>, index: int)
    ensures 0 <= index < |s| ==> RemoveIndex(s, index) == s[..index] + s[index + 1..]
    ensures !(0 <= index < |s|) ==> RemoveIndex(s, index) == s
    decreases |s|
  {
    if s != [] {
      RemoveIndexMeaning(s[1..], index - 1);
      if index == 0 {
        assert s[1..] == s[..0] + s[1..];
      } else if 0 < index < |s| {
        assert s[..index] + s[index + 1..] == [s[0]] + (s[1..][..index - 1] + s[1..][index..]);
      } else {
        assert s == [s[0]] + s[1..];
      }
    }
  }

  /** Removing an element keeps a duplicate-free list duplicate-free. */
  lemma RemoveKeepsDistinct<T>(s: seq<T>, index: int)
    requires Distinct(s)
    ensures Distinct(RemoveIndex(s, index))
  {
    RemoveIndexMeaning(s, index);
    if 0 <= index < |s| {
      var r := RemoveIndex(s, index);
      forall i, j | 0 <= i < j < |r| ensures r[i] != r[j] {
        var i' := if i < index then i else i + 1;
        var j' := if j < index then j else j + 1;
        assert r[i] == s[i'] && r[j] == s[j'];
      }
    }
  }

}
