/**
 * Ordered toggle-set selection, shared by the keyword step and both competitor
 * groups: a selection is a list of labels in the order they were chosen, and
 * `includes`, `filter` and spread-append are the only operations applied to it.
 */
module Selection {

  /** No label is selected twice. */
  predicate NoDuplicates(s: seq<string>) {
    forall i, j :: 0 <= i < j < |s| ==> s[i] != s[j]
  }

  /** `s.filter(c => c !== x)`: every occurrence of `x` dropped, the rest kept in order. */
  function Without(s: seq<string>, x: string): (r: seq<string>)
    ensures |r| <= |s|
    ensures forall y :: y in r <==> y in s && y != x
  {
    if s == [] then []
    else if s[0] == x then Without(s[1..], x)
    else [s[0]] + Without(s[1..], x)
  }

  /** Filtering out a label that is not selected changes nothing. */
  lemma {:induction false} WithoutAbsent(s: seq<string>, x: string)
    requires x !in s
    ensures Without(s, x) == s
  {
    if s != [] {
      assert s[1..] + [] == s[1..];
      WithoutAbsent(s[1..], x);
      assert [s[0]] + s[1..] == s;
    }
  }

  /**
   * Filtering out the label at position `k` of a duplicate-free selection removes
   * exactly that position: what comes before and after keeps its order.
   */
  lemma {:induction false} WithoutAt(s: seq<string>, k: nat)
    requires NoDuplicates(s) && k < |s|
    ensures Without(s, s[k]) == s[..k] + s[k + 1..]
  {
    if k == 0 {
      assert forall j :: 0 <= j < |s[1..]| ==> s[1..][j] == s[j + 1];
      WithoutAbsent(s[1..], s[0]);
    } else {
      var t := s[1..];
      assert NoDuplicates(t);
      assert t[k - 1] == s[k];
      assert s[0] != s[k];
      WithoutAt(t, k - 1);
      assert s[..k] == [s[0]] + t[..k - 1];
      assert s[k + 1..] == t[k..];
    }
  }

  lemma WithoutKeepsNoDuplicates(s: seq<string>, x: string)
    requires NoDuplicates(s)
    ensures NoDuplicates(Without(s, x))
  {
    if x in s {
      var k :| 0 <= k < |s| && s[k] == x;
      WithoutAt(s, k);
      var r := s[..k] + s[k + 1..];
      forall i, j | 0 <= i < j < |r| ensures r[i] != r[j] {
        var i' := if i < k then i else i + 1;
        var j' := if j < k then j else j + 1;
        assert r[i] == s[i'] && r[j] == s[j'];
      }
    } else {
      WithoutAbsent(s, x);
    }
  }

  /** Filtering out a label that was just appended gives back the list it was appended to. */
  lemma {:induction false} WithoutAppended(s: seq<string>, x: string)
    requires x !in s
    ensures Without(s + [x], x) == s
  {
    if s == [] {
      assert [x][1..] == [];
    } else {
      assert (s + [x])[1..] == s[1..] + [x];
      WithoutAppended(s[1..], x);
      assert [s[0]] + s[1..] == s;
    }
  }

  /** `prev.includes(x) ? prev.filter(c => c !== x) : [...prev, x]` */
  function Toggle(s: seq<string>, x: string): (r: seq<string>)
    ensures x in r <==> x !in s
    ensures forall y :: y != x ==> (y in r <==> y in s)
  {
    if x in s then Without(s, x) else s + [x]
  }

  /**
   * Toggling an unselected label appends it at the end; toggling a selected one
   * removes it from its place and keeps the other labels in their order.
   */
  lemma ToggleEffect(s: seq<string>, x: string)
    requires NoDuplicates(s)
    ensures x !in s ==> Toggle(s, x) == s + [x]
    ensures forall k :: 0 <= k < |s| && s[k] == x ==> Toggle(s, x) == s[..k] + s[k + 1..]
  {
    forall k | 0 <= k < |s| && s[k] == x ensures Toggle(s, x) == s[..k] + s[k + 1..] {
      WithoutAt(s, k);
    }
  }

  /** Toggling keeps a selection free of duplicates. */
  lemma ToggleKeepsNoDuplicates(s: seq<string>, x: string)
    requires NoDuplicates(s)
    ensures NoDuplicates(Toggle(s, x))
  {
    if x in s {
      WithoutKeepsNoDuplicates(s, x);
    }
  }

  /** Toggling an unselected label twice gives back the original selection, order included. */
  lemma ToggleTwiceRestores(s: seq<string>, x: string)
    requires x !in s
    ensures Toggle(Toggle(s, x), x) == s
  {
    WithoutAppended(s, x);
  }

  /**
   * Toggling a SELECTED label twice does not restore the order: the label comes
   * back at the end.
   */
  lemma ToggleTwiceMovesToEnd(s: seq<string>, x: string)
    requires x in s
    ensures Toggle(Toggle(s, x), x) == Without(s, x) + [x]
  {
  }

  lemma ToggleTwiceReordersExample()
    ensures Toggle(Toggle(["Keyword A", "Keyword C"], "Keyword A"), "Keyword A") == ["Keyword C", "Keyword A"]
  {
    var s := ["Keyword A", "Keyword C"];
    assert "Keyword A" in s;
    assert s[1..] == ["Keyword C"];
    assert "Keyword A" != "Keyword C";
    assert Without(s, "Keyword A") == ["Keyword C"] by {
      WithoutAbsent(s[1..], "Keyword A");
    }
  }

  /**
   * `if (!s.includes(v)) s = [...s, v]`: appends `v` unless it is already there
   * (exact, case-sensitive comparison).
   */
  function AppendIfAbsent(s: seq<string>, v: string): (r: seq<string>)
    ensures s <= r && v in r
    ensures forall y :: y in r <==> y in s || y == v
    ensures |r| == if v in s then |s| else |s| + 1
    ensures NoDuplicates(s) ==> NoDuplicates(r)
  {
    if v in s then s else s + [v]
  }
}
