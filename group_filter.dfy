// The `has_group` template filter (POS/templatetags/group_filters.py):
// `group_names` is split on commas, each piece is stripped of surrounding
// whitespace, and the filter holds when one of the user's groups bears one
// of the resulting names. `str.split(',')`, `str.strip()` and the `name__in`
// lookup are modelled exactly, with whitespace restricted to ASCII.

module GroupFilter {
  import opened Text

  /** Occurrences of c in s. */
  function Count(s: string, c: char): nat {
    if s == [] then 0 else (if s[0] == c then 1 else 0) + Count(s[1..], c)
  }

  /** `s.split(',')`: the pieces between commas, empty pieces included. */
  function Split(s: string): (r: seq<string>)
    ensures |r| >= 1
  {
    if s == [] then [""]
    else
      var rest := Split(s[1..]);
      if s[0] == ',' then [""] + rest else [[s[0]] + rest[0]] + rest[1..]
  }

  /** `','.join(ps)`. */
  function JoinComma(ps: seq<string>): string
    requires |ps| >= 1
  {
    if |ps| == 1 then ps[0] else ps[0] + "," + JoinComma(ps[1..])
  }

  /** There is one piece per comma, plus one. */
  lemma {:induction false} SplitCount(s: string)
    ensures |Split(s)| == Count(s, ',') + 1
  {
    if s != [] {
      SplitCount(s[1..]);
    }
  }

  /** No piece contains a comma. */
  lemma {:induction false} SplitPiecesHaveNoComma(s: string)
    ensures forall i :: 0 <= i < |Split(s)| ==> Count(Split(s)[i], ',') == 0
  {
    if s != [] {
      SplitPiecesHaveNoComma(s[1..]);
      var rest := Split(s[1..]);
      if s[0] != ',' {
        assert ([s[0]] + rest[0])[1..] == rest[0];
      }
    }
  }

  /** Joining the pieces with commas gives the input back. */
  lemma {:induction false} JoinSplit(s: string)
    ensures JoinComma(Split(s)) == s
  {
    if s != [] {
      JoinSplit(s[1..]);
      var rest := Split(s[1..]);
      if s[0] == ',' {
        assert ([""] + rest)[1..] == rest;
      } else {
        var ps := [[s[0]] + rest[0]] + rest[1..];
        if |rest| == 1 {
          assert s == [s[0]] + s[1..];
        } else {
          assert ps[1..] == rest[1..];
          assert s == [s[0]] + s[1..];
        }
      }
    }
  }

  /** Input without a comma is one piece: itself. */
  lemma {:induction false} SplitWithoutComma(s: string)
    requires Count(s, ',') == 0
    ensures Split(s) == [s]
  {
    if s != [] {
      SplitWithoutComma(s[1..]);
      assert s == [s[0]] + s[1..];
    }
  }

  // ---------------------------------------------------------------- strip

  /** Length of the run of whitespace that starts s. */
  function LeadingSpaces(s: string): (n: nat)
    ensures n <= |s|
    ensures forall i :: 0 <= i < n ==> IsSpace(s[i])
    ensures n < |s| ==> !IsSpace(s[n])
  {
    if s != [] && IsSpace(s[0]) then 1 + LeadingSpaces(s[1..]) else 0
  }

  /** Length of the run of whitespace that ends s. */
  function TrailingSpaces(s: string): (n: nat)
    ensures n <= |s|
    ensures forall i :: |s| - n <= i < |s| ==> IsSpace(s[i])
    ensures n < |s| ==> !IsSpace(s[|s| - n - 1])
  {
    if s != [] && IsSpace(s[|s| - 1]) then 1 + TrailingSpaces(s[..|s| - 1]) else 0
  }

  /** `s.strip()`: the slice of s between its leading and its trailing
      whitespace. */
  function Strip(s: string): (r: string)
    ensures r == [] || (!IsSpace(r[0]) && !IsSpace(r[|r| - 1]))
    ensures |r| <= |s|
  {
    var t := s[LeadingSpaces(s)..];
    t[..|t| - TrailingSpaces(t)]
  }

  /** Strip keeps a contiguous slice of s and removes only whitespace. */
  lemma StripRemovesOnlySpace(s: string)
    ensures var a, r := LeadingSpaces(s), Strip(s);
      && a + |r| <= |s|
      && r == s[a..a + |r|]
      && forall i :: 0 <= i < |s| && !(a <= i < a + |r|) ==> IsSpace(s[i])
  {
    var a := LeadingSpaces(s);
    var t := s[a..];
    var b := TrailingSpaces(t);
    forall i | a + |Strip(s)| <= i < |s| ensures IsSpace(s[i]) {
      assert s[i] == t[i - a];
    }
  }

  /** Stripping twice strips once. */
  lemma StripIdempotent(s: string)
    ensures Strip(Strip(s)) == Strip(s)
  {
    var r := Strip(s);
    assert LeadingSpaces(r) == 0;
    assert r[0..] == r;
    assert TrailingSpaces(r) == 0;
    assert r[..|r|] == r;
  }

  // ---------------------------------------------------------------- the filter

  /** `[g.strip() for g in group_names.split(',')]`. */
  function GroupList(groupNames: string): (r: seq<string>)
    ensures |r| == |Split(groupNames)|
    ensures forall i :: 0 <= i < |r| ==> r[i] == Strip(Split(groupNames)[i])
  {
    var ps := Split(groupNames);
    seq(|ps|, i requires 0 <= i < |ps| => Strip(ps[i]))
  }

  /** `has_group(user, group_names)` (POS/templatetags/group_filters.py:6-9):
      whether the user's groups and the parsed names meet. */
  predicate HasGroup(userGroups: set<string>, groupNames: string) {
    exists i :: 0 <= i < |GroupList(groupNames)| && GroupList(groupNames)[i] in userGroups
  }

  /** The filter holds exactly when the user's group names and the parsed
      names have a name in common. */
  lemma HasGroupIsIntersection(userGroups: set<string>, groupNames: string)
    ensures HasGroup(userGroups, groupNames)
        <==> userGroups * (set i | 0 <= i < |GroupList(groupNames)| :: GroupList(groupNames)[i]) != {}
  {
    var names := GroupList(groupNames);
    var common := userGroups * (set i | 0 <= i < |names| :: names[i]);
    if HasGroup(userGroups, groupNames) {
      var i :| 0 <= i < |names| && names[i] in userGroups;
      assert names[i] in common;
    }
    if common != {} {
      var g :| g in common;
      var i :| 0 <= i < |names| && names[i] == g;
      assert names[i] in userGroups;
    }
  }

  /** Input with no comma names exactly one group: the stripped input. */
  lemma SingleNameFilter(userGroups: set<string>, groupNames: string)
    requires Count(groupNames, ',') == 0
    ensures GroupList(groupNames) == [Strip(groupNames)]
    ensures HasGroup(userGroups, groupNames) <==> Strip(groupNames) in userGroups
  {
    SplitWithoutComma(groupNames);
    if Strip(groupNames) in userGroups {
      assert GroupList(groupNames)[0] in userGroups;
    }
  }
}
