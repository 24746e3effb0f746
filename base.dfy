/** Small shared vocabulary: optional values (C# `null`) and the
    "first row whose key matches" lookup that every handler performs
    through `FirstOrDefaultAsync`. */
module Base {

  /** A nullable value: `None` stands for C# `null`. */
  datatype Option<+T> = None | Some(value: T) {
    function GetOr(default: T): T {
      match this
      case Some(v) => v
      case None => default
    }
  }

  /** `string.IsNullOrEmpty` on a nullable string. */
  predicate IsNullOrEmpty(s: Option<string>) {
    s.None? || s.value == ""
  }

  /** The index of the first element of `s` that satisfies `p`, or `None`
      when there is none: `FirstOrDefault(p)` read as a position, so that a
      handler can later update or remove exactly that row. */
  function FirstIndex<T>(s: seq<T>, p: T -> bool): (r: Option<nat>)
    ensures r.Some? ==> r.value < |s| && p(s[r.value])
    ensures r.Some? ==> forall j :: 0 <= j < r.value ==> !p(s[j])
    ensures r.None? <==> forall j :: 0 <= j < |s| ==> !p(s[j])
  {
    if |s| == 0 then None
    else if p(s[0]) then Some(0)
    else match FirstIndex(s[1..], p)
      case None => None
      case Some(k) => Some(k + 1)
  }

  /** The first match is the position before which nothing matches. */
  lemma FirstIndexAt<T>(s: seq<T>, p: T -> bool, k: nat)
    requires k < |s| && p(s[k])
    requires forall j :: 0 <= j < k ==> !p(s[j])
    ensures FirstIndex(s, p) == Some(k)
  {
  }

  /** Rewriting elements at and after the first match, in a way that never
      makes an earlier element match, leaves the first match where it was. */
  lemma {:induction false} FirstIndexStable<T>(s: seq<T>, s': seq<T>, p: T -> bool, i: nat)
    requires FirstIndex(s, p) == Some(i)
    requires |s'| == |s| && s'[..i] == s[..i] && p(s'[i])
    ensures FirstIndex(s', p) == Some(i)
  {
    assert forall j :: 0 <= j < i ==> s'[j] == s[..i][j];
  }

  /** Appending an element that does not match leaves the lookup as it was. */
  lemma FirstIndexAppendOther<T>(s: seq<T>, x: T, p: T -> bool)
    requires !p(x)
    ensures FirstIndex(s + [x], p) == FirstIndex(s, p)
  {
    assert forall j :: 0 <= j < |s| ==> (s + [x])[j] == s[j];
  }

  /** Two sequences whose elements match at the same positions have their
      first match at the same position. */
  lemma FirstIndexSameMatches<T>(s: seq<T>, s': seq<T>, p: T -> bool)
    requires |s'| == |s| && forall k :: 0 <= k < |s| ==> p(s[k]) == p(s'[k])
    ensures FirstIndex(s', p) == FirstIndex(s, p)
  {
    var r, r' := FirstIndex(s, p), FirstIndex(s', p);
    if r.Some? && r'.Some? {
      assert !(r.value < r'.value) && !(r'.value < r.value);
    }
  }
}
