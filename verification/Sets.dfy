/** Facts about the sizes of finite sets. */
module Sets {
  lemma SubsetSize<T>(a: set<T>, u: set<T>)
    requires a <= u
    ensures |a| <= |u|
  {
    assert u == a + (u - a);
  }

  lemma HasMember(s: set<int>)
    ensures s == {} || exists x :: x in s
  {
    if !exists x :: x in s {
      assert s == {};
    }
  }

  lemma InsertSize<T>(s: set<T>, x: T)
    ensures |s + {x}| == |s| + if x in s then 0 else 1
  {
    if x in s {
      assert s + {x} == s;
    }
  }

  lemma NothingNew<T>(s: set<T>, x: T)
    requires |s + {x}| <= |s|
    ensures s + {x} == s
  {
    InsertSize(s, x);
    if x in s {
      assert s + {x} == s;
    }
  }

  /** Two sets that are together larger than what contains them share a member. */
  lemma Overlap<T>(u: set<T>, a: set<T>, b: set<T>)
    requires a <= u && b <= u && |a| + |b| > |u|
    ensures a * b != {}
  {
    if a * b == {} {
      assert |a + b| == |a| + |b|;
      SubsetSize(a + b, u);
    }
  }

  lemma FourParts<T>(u: set<T>, a: set<T>, b: set<T>, c: set<T>, d: set<T>)
    requires u == a + b + c + d && a !! b !! c !! d
    ensures |u| == |a| + |b| + |c| + |d|
  {
    assert |a + b| == |a| + |b|;
    assert |a + b + c| == |a + b| + |c|;
    assert |a + b + c + d| == |a + b + c| + |d|;
  }
}
