/**
  Splitting a fully qualified signal name into its interface and member, as
  `_connect_signal` does with `name.rsplit('.', 1)` followed by a two-way
  unpacking (which fails when the name contains no dot).
*/
module Names {
  import opened Wrappers

  /** The index of the last '.' in `s`, if there is one. */
  function LastDot(s: string): (r: Option<nat>)
    ensures r.Some? ==> r.value < |s| && s[r.value] == '.' && '.' !in s[r.value + 1..]
    ensures r.None? ==> '.' !in s
    decreases |s|
  {
    if |s| == 0 then None
    else if s[|s| - 1] == '.' then Some(|s| - 1)
    else
      var r := LastDot(s[..|s| - 1]);
      assert r.Some? ==> s[r.value + 1..] == s[..|s| - 1][r.value + 1..] + [s[|s| - 1]];
      assert r.None? ==> s == s[..|s| - 1] + [s[|s| - 1]];
      r
  }

  /**
    `interface, member = name.rsplit('.', 1)`: None when the unpacking
    fails (no dot); otherwise the parts around the last dot.
  */
  function RSplitOnce(name: string): (r: Option<(string, string)>)
    ensures r.None? <==> '.' !in name
    ensures r.Some? ==> r.value.0 + "." + r.value.1 == name && '.' !in r.value.1
  {
    match LastDot(name)
    case None => None
    case Some(i) =>
      assert name == name[..i] + "." + name[i + 1..];
      Some((name[..i], name[i + 1..]))
  }

  /** A tail without dots does not move the last dot. */
  lemma {:induction false} LastDotIgnoresDotlessTail(a: string, b: string)
    requires '.' !in b
    ensures LastDot(a + b) == LastDot(a)
    decreases |b|
  {
    if b == [] {
      assert a + b == a;
    } else {
      var ab := a + b;
      var b' := b[..|b| - 1];
      assert ab[..|ab| - 1] == a + b';
      assert ab[|ab| - 1] == b[|b| - 1];
      assert b[|b| - 1] in b;
      assert forall c :: c in b' ==> c in b;
      LastDotIgnoresDotlessTail(a, b');
    }
  }

  /**
    Joining an interface and a dotless member with '.' and splitting again
    gives back the two parts: the split is the inverse of the join.
  */
  lemma {:induction false} RSplitOnceOfJoin(iface: string, member: string)
    requires '.' !in member
    ensures RSplitOnce(iface + "." + member) == Some((iface, member))
  {
    var name := iface + "." + member;
    assert name == (iface + ".") + member;
    LastDotIgnoresDotlessTail(iface + ".", member);
    assert LastDot(iface + ".") == Some(|iface|);
    assert name[..|iface|] == iface;
    assert name[|iface| + 1..] == member;
  }
}
