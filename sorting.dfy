/** Sorting channels by name, as `Array.prototype.sort` does with a
    comparator built on `localeCompare`. The collation is not modelled: it is
    the parameter `le`, read as "localeCompare(a, b) <= 0". The sort is an
    insertion sort. */
module Sorting {
  import opened Common

  /** What `localeCompare` provides: any two names are comparable, and the
      order is transitive. Distinct names may compare equal. */
  ghost predicate TotalPreorder(le: (string, string) -> bool) {
    && (forall a, b :: le(a, b) || le(b, a))
    && (forall a, b, c :: le(a, b) && le(b, c) ==> le(a, c))
  }

  ghost predicate SortedByName(s: seq<ChannelMeta>, le: (string, string) -> bool) {
    forall i, j :: 0 <= i < j < |s| ==> le(s[i].channelname, s[j].channelname)
  }

  /** Puts `c` in front of the first element it is not greater than. */
  function InsertByName(c: ChannelMeta, s: seq<ChannelMeta>, le: (string, string) -> bool): seq<ChannelMeta>
  {
    if s == [] then [c]
    else if le(c.channelname, s[0].channelname) then [c] + s
    else [s[0]] + InsertByName(c, s[1..], le)
  }

  function SortByName(s: seq<ChannelMeta>, le: (string, string) -> bool): seq<ChannelMeta>
  {
    if s == [] then [] else InsertByName(s[0], SortByName(s[1..], le), le)
  }

  lemma {:induction false} InsertByNamePermutes(c: ChannelMeta, s: seq<ChannelMeta>, le: (string, string) -> bool)
    ensures multiset(InsertByName(c, s, le)) == multiset(s) + multiset{c}
  {
    if s != [] && !le(c.channelname, s[0].channelname) {
      InsertByNamePermutes(c, s[1..], le);
      assert s == [s[0]] + s[1..];
    }
  }

  /** A name not greater than `c` and than every element of `s` is not
      greater than any element after the insertion. */
  lemma {:induction false} InsertByNameLowerBound(c: ChannelMeta, s: seq<ChannelMeta>, x: string, le: (string, string) -> bool)
    requires le(x, c.channelname)
    requires forall j :: 0 <= j < |s| ==> le(x, s[j].channelname)
    ensures forall j :: 0 <= j < |InsertByName(c, s, le)| ==> le(x, InsertByName(c, s, le)[j].channelname)
  {
    if s != [] && !le(c.channelname, s[0].channelname) {
      InsertByNameLowerBound(c, s[1..], x, le);
      var t := InsertByName(c, s[1..], le);
      assert forall j :: 1 <= j < |InsertByName(c, s, le)| ==> InsertByName(c, s, le)[j] == t[j - 1];
    }
  }

  lemma {:induction false} InsertByNameSorted(c: ChannelMeta, s: seq<ChannelMeta>, le: (string, string) -> bool)
    requires TotalPreorder(le)
    requires SortedByName(s, le)
    ensures SortedByName(InsertByName(c, s, le), le)
  {
    if s == [] {
    } else if le(c.channelname, s[0].channelname) {
      var r := [c] + s;
      forall i, j | 0 <= i < j < |r| ensures le(r[i].channelname, r[j].channelname) {
        if i == 0 && j > 1 {
          assert le(s[0].channelname, s[j - 1].channelname);
        }
      }
    } else {
      var t := InsertByName(c, s[1..], le);
      InsertByNameSorted(c, s[1..], le);
      assert forall j :: 0 <= j < |s[1..]| ==> s[1..][j] == s[j + 1];
      InsertByNameLowerBound(c, s[1..], s[0].channelname, le);
      var r := [s[0]] + t;
      forall i, j | 0 <= i < j < |r| ensures le(r[i].channelname, r[j].channelname) {
        assert r[j] == t[j - 1];
        if i > 0 {
          assert r[i] == t[i - 1];
        }
      }
    }
  }

  /** The sorted list holds exactly the input's channels, as often as the
      input holds them, and is ordered by name. */
  lemma {:induction false} SortByNameSortedPermutation(s: seq<ChannelMeta>, le: (string, string) -> bool)
    ensures multiset(SortByName(s, le)) == multiset(s)
    ensures |SortByName(s, le)| == |s|
    ensures TotalPreorder(le) ==> SortedByName(SortByName(s, le), le)
  {
    if s != [] {
      SortByNameSortedPermutation(s[1..], le);
      InsertByNamePermutes(s[0], SortByName(s[1..], le), le);
      assert s == [s[0]] + s[1..];
      assert multiset(SortByName(s, le)) == multiset(s);
      assert |multiset(SortByName(s, le))| == |multiset(s)|;
      if TotalPreorder(le) {
        InsertByNameSorted(s[0], SortByName(s[1..], le), le);
      }
    }
  }
}
