/** The order in which sessions are listed: by creation time, then by id. */
module Orders {

  datatype Summary = Summary(id: string, createdAt: int)

  predicate Less(a: string, b: string) {
    if b == "" then false
    else if a == "" then true
    else if a[0] != b[0] then a[0] < b[0]
    else Less(a[1..], b[1..])
  }

  predicate Before(x: Summary, y: Summary) {
    x.createdAt < y.createdAt || (x.createdAt == y.createdAt && Less(x.id, y.id))
  }

  lemma {:induction false} LessIsTotal(a: string, b: string)
    ensures Less(a, b) || a == b || Less(b, a)
    ensures !(Less(a, b) && Less(b, a)) && !Less(a, a)
    decreases |a|
  {
    if a != "" {
      LessIsTotal(a[1..], if b == "" then "" else b[1..]);
      if b != "" && a[0] == b[0] && a[1..] == b[1..] {
        assert [a[0]] + a[1..] == a && [b[0]] + b[1..] == b;
      }
      LessIsTotal(a[1..], a[1..]);
    }
  }

  lemma {:induction false} LessIsTransitive(a: string, b: string, c: string)
    requires Less(a, b) && Less(b, c)
    ensures Less(a, c)
    decreases |a|
  {
    if a != "" && a[0] == b[0] == c[0] { LessIsTransitive(a[1..], b[1..], c[1..]); }
  }

  lemma {:induction false} BeforeIsTransitive(x: Summary, y: Summary, z: Summary)
    requires Before(x, y) && Before(y, z)
    ensures Before(x, z)
  {
    if x.createdAt == y.createdAt == z.createdAt { LessIsTransitive(x.id, y.id, z.id); }
  }

  lemma {:induction false} BeforeIsTotal(x: Summary, y: Summary)
    ensures Before(x, y) || x == y || Before(y, x)
    ensures !(Before(x, y) && Before(y, x)) && !Before(x, x)
  {
    LessIsTotal(x.id, y.id);
    LessIsTotal(x.id, x.id);
  }

  /** Less is the order of the first character in which the strings differ, a proper prefix coming first. */
  lemma {:induction false} LessIff(a: string, b: string)
    ensures Less(a, b) <==> exists k :: DiffersAt(a, b, k)
    decreases |a|
  {
    if a != "" && b != "" && a[0] == b[0] {
      LessIff(a[1..], b[1..]);
      if k :| DiffersAt(a[1..], b[1..], k) {
        assert a[..k + 1] == [a[0]] + a[1..][..k] && b[..k + 1] == [b[0]] + b[1..][..k];
        assert DiffersAt(a, b, k + 1);
      }
      if k :| DiffersAt(a, b, k) {
        assert a[1..][..k - 1] == a[..k][1..] && b[1..][..k - 1] == b[..k][1..];
        assert DiffersAt(a[1..], b[1..], k - 1);
      }
    } else if b != "" {
      assert a[..0] == b[..0];
      assert a == "" || a[0] < b[0] ==> DiffersAt(a, b, 0);
      if k :| DiffersAt(a, b, k) { assert k > 0 ==> a[..k][0] == b[..k][0]; }
    }
  }

  predicate DiffersAt(a: string, b: string, k: int) {
    && 0 <= k <= |a| && k < |b| && a[..k] == b[..k]
    && (k < |a| ==> a[k] < b[k])
  }

  predicate StrictlySorted(s: seq<Summary>) {
    forall i, j :: 0 <= i < j < |s| ==> Before(s[i], s[j])
  }

  /** Older sessions first, and those of the same time in the order of their ids, which all differ. */
  ghost predicate OldestFirst(x: Summary, y: Summary) {
    x.createdAt <= y.createdAt && (x.createdAt == y.createdAt ==> exists k :: DiffersAt(x.id, y.id, k))
  }

  lemma {:induction false} SortedIff(s: seq<Summary>)
    ensures StrictlySorted(s) <==> forall i, j :: 0 <= i < j < |s| ==> OldestFirst(s[i], s[j])
  {
    forall i, j | 0 <= i < j < |s| ensures Before(s[i], s[j]) <==> OldestFirst(s[i], s[j]) {
      LessIff(s[i].id, s[j].id);
    }
  }

  lemma {:induction false} HeadIsIn(s: seq<Summary>)
    ensures s != [] ==> s[0] in s
  {
  }

  /** A strictly sorted list is determined by its elements: the listing does not depend on map order. */
  lemma {:induction false} SortedListIsUnique(a: seq<Summary>, b: seq<Summary>)
    requires StrictlySorted(a) && StrictlySorted(b)
    requires forall x :: x in a <==> x in b
    ensures a == b
    decreases |a|
  {
    HeadIsIn(b);
    if a != [] {
      assert a[0] in b;
      var i :| 0 <= i < |b| && b[i] == a[0];
      assert b[0] in a;
      var j :| 0 <= j < |a| && a[j] == b[0];
      BeforeIsTotal(a[0], b[0]);
      assert a[0] == b[0];
      forall x ensures x in a[1..] <==> x in b[1..] {
        BeforeIsTotal(a[0], a[0]);
        if x in a[1..] {
          var k :| 1 <= k < |a| && a[k] == x;
          assert x in b && Before(a[0], x);
        }
        if x in b[1..] {
          var k :| 1 <= k < |b| && b[k] == x;
          assert x in a && Before(b[0], x);
        }
      }
      SortedListIsUnique(a[1..], b[1..]);
    }
  }

  predicate Distinct(s: seq<Summary>) {
    forall i, j :: 0 <= i < j < |s| ==> s[i] != s[j]
  }

  /** Inserts into a strictly sorted list before the first later element. */
  method Insert(s: seq<Summary>, x: Summary) returns (t: seq<Summary>)
    requires StrictlySorted(s) && x !in s
    ensures StrictlySorted(t)
    ensures forall y :: y in t <==> y in s || y == x
  {
    var i := 0;
    while i < |s| && Before(s[i], x)
      invariant 0 <= i <= |s|
      invariant forall k :: 0 <= k < i ==> Before(s[k], x)
    {
      i := i + 1;
    }
    t := s[..i] + [x] + s[i..];
    forall k | i <= k < |s| ensures Before(x, s[k]) {
      BeforeIsTotal(s[i], x);
      assert s[i] in s;
      if k > i { BeforeIsTransitive(x, s[i], s[k]); }
    }
  }

  /** Sorts by creation time and id. */
  method Sort(s: seq<Summary>) returns (t: seq<Summary>)
    requires Distinct(s)
    ensures StrictlySorted(t)
    ensures forall y :: y in t <==> y in s
  {
    t := [];
    for i := 0 to |s|
      invariant StrictlySorted(t)
      invariant forall y :: y in t <==> y in s[..i]
    {
      assert s[i] !in s[..i];
      t := Insert(t, s[i]);
      assert s[..i + 1] == s[..i] + [s[i]];
    }
    assert s[..|s|] == s;
  }
}
