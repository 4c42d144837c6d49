/**
 * The home page's outlet search: the static outlet list filtered by whether
 * the lowercased name or cuisine contains the lowercased query.
 */
module Home {
  import opened Seqs

  /** An outlet card's data (the image URL is left out). */
  datatype Outlet = Outlet(id: int, name: string, cuisine: string, rating: real, distance: string, time: string, isOpen: bool)

  /** The six outlets the page lists. */
  function Outlets(): (r: seq<Outlet>)
    ensures |r| == 6
  {
    [ Outlet(1, "Campus Café", "Coffee & Snacks", 4.5, "100m", "10-15 min", true),
      Outlet(2, "Pizza Paradise", "Italian", 4.7, "250m", "15-20 min", true),
      Outlet(3, "Burger Junction", "American", 4.3, "180m", "12-18 min", true),
      Outlet(4, "Asian Delight", "Chinese & Thai", 4.6, "320m", "20-25 min", false),
      Outlet(5, "Healthy Bites", "Salads & Bowls", 4.8, "150m", "10-12 min", true),
      Outlet(6, "Taco Fiesta", "Mexican", 4.4, "290m", "18-22 min", true) ]
  }

  /** `toLowerCase` on one character, for the letters A-Z. */
  function LowerChar(c: char): char
  {
    if 'A' <= c <= 'Z' then (c as int + 32) as char else c
  }

  /** `toUpperCase` on one character, for the letters a-z. */
  function UpperChar(c: char): char
  {
    if 'a' <= c <= 'z' then (c as int - 32) as char else c
  }

  /** `s.toLowerCase()`, character by character. */
  function Lower(s: string): (r: string)
    ensures |r| == |s|
    ensures forall i :: 0 <= i < |s| ==> r[i] == LowerChar(s[i])
  {
    seq(|s|, i requires 0 <= i < |s| => LowerChar(s[i]))
  }

  /** `s.toUpperCase()`, character by character. */
  function Upper(s: string): (r: string)
    ensures |r| == |s|
    ensures forall i :: 0 <= i < |s| ==> r[i] == UpperChar(s[i])
  {
    seq(|s|, i requires 0 <= i < |s| => UpperChar(s[i]))
  }

  /** `sub` occurs in `s` starting at position `i`. */
  predicate OccursAt(s: string, sub: string, i: int)
  {
    0 <= i <= |s| - |sub| && s[i..i + |sub|] == sub
  }

  /** `s.includes(sub)`: `sub` occurs in `s` at some position. */
  predicate Contains(s: string, sub: string)
  {
    exists i :: 0 <= i <= |s| - |sub| && OccursAt(s, sub, i)
  }

  /** The filter's selector for an already lowercased query. */
  function MatchesLowered(q: string): Outlet -> bool
  {
    (o: Outlet) => Contains(Lower(o.name), q) || Contains(Lower(o.cuisine), q)
  }

  /** `filteredOutlets`: the outlets, in order, whose lowercased name or cuisine contains the lowercased query. */
  function Search(outlets: seq<Outlet>, query: string): (r: seq<Outlet>)
    ensures forall o :: o in r <==>
      o in outlets && (Contains(Lower(o.name), Lower(query)) || Contains(Lower(o.cuisine), Lower(query)))
    ensures IsSubseq(r, outlets)
  {
    FilterIsSubseq(outlets, MatchesLowered(Lower(query)));
    Filter(outlets, MatchesLowered(Lower(query)))
  }

  /** Every string contains the empty string. */
  lemma ContainsEmpty(s: string)
    ensures Contains(s, "")
  {
    assert OccursAt(s, "", 0);
  }

  /** An empty query lists every outlet. */
  lemma EmptyQueryListsAll(outlets: seq<Outlet>)
    ensures Search(outlets, "") == outlets
  {
    forall o | o in outlets ensures MatchesLowered(Lower(""))(o) {
      ContainsEmpty(Lower(o.name));
    }
    FilterKeepsAll(outlets, MatchesLowered(Lower("")));
  }

  /** Lowercasing twice is lowercasing once, and lowercasing undoes uppercasing. */
  lemma LowerAbsorbs(s: string)
    ensures Lower(Lower(s)) == Lower(s)
    ensures Lower(Upper(s)) == Lower(s)
  {
  }

  /**
   * The result does not depend on the query's letter case: two queries that
   * lowercase alike, such as a query and its upper- or lowercased form,
   * list the same outlets.
   */
  lemma CaseInsensitive(outlets: seq<Outlet>, q: string, q': string)
    requires Lower(q) == Lower(q')
    ensures Search(outlets, q) == Search(outlets, q')
    ensures Search(outlets, Upper(q)) == Search(outlets, q) == Search(outlets, Lower(q))
  {
    LowerAbsorbs(q);
  }

  /** Lowercasing commutes with taking a slice. */
  lemma LowerSlice(s: string, i: int, j: int)
    requires 0 <= i <= j <= |s|
    ensures Lower(s)[i..j] == Lower(s[i..j])
  {
  }

  /** Containment is transitive. */
  lemma ContainsTrans(s: string, t: string, u: string)
    requires Contains(s, t) && Contains(t, u)
    ensures Contains(s, u)
  {
    var i :| 0 <= i <= |s| - |t| && OccursAt(s, t, i);
    var j :| 0 <= j <= |t| - |u| && OccursAt(t, u, j);
    assert t == s[i..i + |t|];
    var a, b := s[i + j..i + j + |u|], t[j..j + |u|];
    forall k | 0 <= k < |u| ensures a[k] == b[k] {
      assert t[j + k] == s[i..i + |t|][j + k];
    }
    assert a == b;
    assert OccursAt(s, u, i + j);
  }

  /** A query that occurs in another lowercased occurs in its lowercased form. */
  lemma ContainsLower(s: string, sub: string)
    requires Contains(s, sub)
    ensures Contains(Lower(s), Lower(sub))
  {
    var i :| 0 <= i <= |s| - |sub| && OccursAt(s, sub, i);
    LowerSlice(s, i, i + |sub|);
    assert OccursAt(Lower(s), Lower(sub), i);
  }

  /**
   * Typing more narrows the result: if `q'` occurs in `q`, every outlet
   * found for `q` is found for `q'`.
   */
  lemma LongerQueryNarrows(outlets: seq<Outlet>, q: string, q': string)
    requires Contains(q, q')
    ensures forall o :: o in Search(outlets, q) ==> o in Search(outlets, q')
  {
    ContainsLower(q, q');
    forall o | o in Search(outlets, q) ensures o in Search(outlets, q') {
      if Contains(Lower(o.name), Lower(q)) {
        ContainsTrans(Lower(o.name), Lower(q), Lower(q'));
      } else {
        ContainsTrans(Lower(o.cuisine), Lower(q), Lower(q'));
      }
    }
  }
}
