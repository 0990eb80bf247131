/**
 * First-match search, the shape shared by the endpoint failover and the
 * serial-port discovery: try candidates in list order, keep the first that
 * passes.
 */
module Search {
  import opened Wrappers

  /** The position of the first element of `s` at or after `i` passing `p`, or `|s|` when none does. */
  function IndexFrom<T>(s: seq<T>, p: T -> bool, i: nat): (j: nat)
    requires i <= |s|
    ensures i <= j <= |s|
    decreases |s| - i
  {
    if i == |s| || p(s[i]) then i else IndexFrom(s, p, i + 1)
  }

  /** The position of the first element passing `p`, or `|s|` when none does. */
  function IndexOfFirst<T>(s: seq<T>, p: T -> bool): (i: nat)
    ensures i <= |s|
  {
    IndexFrom(s, p, 0)
  }

  lemma {:induction false} IndexFromSpec<T>(s: seq<T>, p: T -> bool, i: nat)
    requires i <= |s|
    ensures forall j :: i <= j < IndexFrom(s, p, i) ==> !p(s[j])
    ensures IndexFrom(s, p, i) < |s| ==> p(s[IndexFrom(s, p, i)])
    decreases |s| - i
  {
    if i < |s| && !p(s[i]) {
      IndexFromSpec(s, p, i + 1);
    }
  }

  /** The position found is the first passing one: nothing before it passes, and it passes unless it is the end. */
  lemma IndexOfFirstSpec<T>(s: seq<T>, p: T -> bool)
    ensures forall j :: 0 <= j < IndexOfFirst(s, p) ==> !p(s[j])
    ensures IndexOfFirst(s, p) < |s| ==> p(s[IndexOfFirst(s, p)])
  {
    IndexFromSpec(s, p, 0);
  }

  /** The first element of `s` passing `p`, if any. */
  function FirstWhere<T>(s: seq<T>, p: T -> bool): Option<T> {
    var i := IndexOfFirst(s, p);
    if i < |s| then Some(s[i]) else None
  }

  /** The search finds nothing exactly when no element passes; what it finds is an element that passes. */
  lemma FirstWhereSpec<T>(s: seq<T>, p: T -> bool)
    ensures var r := FirstWhere(s, p);
      && (r.None? <==> forall j :: 0 <= j < |s| ==> !p(s[j]))
      && (r.Some? ==> r.value in s && p(r.value))
  {
    IndexOfFirstSpec(s, p);
  }

  /** The first passing element is the one at the first passing position. */
  lemma FirstWhereAt<T>(s: seq<T>, p: T -> bool, i: nat)
    requires i < |s| && p(s[i])
    requires forall j :: 0 <= j < i ==> !p(s[j])
    ensures FirstWhere(s, p) == Some(s[i])
  {
    IndexOfFirstSpec(s, p);
  }

  /** Searching a list with a passing head yields the head; otherwise the tail decides. */
  lemma FirstWhereCons<T>(s: seq<T>, p: T -> bool)
    requires s != []
    ensures FirstWhere(s, p) == if p(s[0]) then Some(s[0]) else FirstWhere(s[1..], p)
  {
    if !p(s[0]) {
      var t := s[1..];
      IndexOfFirstSpec(t, p);
      var i := IndexOfFirst(t, p);
      if i < |t| {
        assert t[i] == s[i + 1];
        FirstWhereAt(s, p, i + 1);
      } else {
        IndexOfFirstSpec(s, p);
        assert forall j :: 1 <= j < |s| ==> s[j] == t[j - 1];
      }
    } else {
      FirstWhereAt(s, p, 0);
    }
  }
}
