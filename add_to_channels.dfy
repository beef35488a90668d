/** The "add to channels" screen of a team: the channel list with `general`
    pinned on top, the search filter, the set of checked channels, and the
    submit that adds the chosen users to every checked channel. */
module AddToChannels {
  import opened Common
  import opened Sorting

  /** The route's `mode`; a missing mode reads as Self. */
  datatype Mode = Self | Others

  // ---------------------------------------------------------------------
  // Shaping the channel list (getChannelsForList)

  datatype ChannelLists = ChannelLists(general: ChannelMeta, all: seq<ChannelMeta>, filtered: seq<ChannelMeta>)

  /** The left fold over the team's channels: a channel named `general`
      replaces the current general candidate (so the last one wins), every
      other channel is appended to the list. */
  function SplitGeneral(cs: seq<ChannelMeta>, placeholder: ChannelMeta): (ChannelMeta, seq<ChannelMeta>)
    decreases |cs|
  {
    if cs == [] then (placeholder, [])
    else
      var rest := SplitGeneral(cs[..|cs| - 1], placeholder);
      var c := cs[|cs| - 1];
      if IsGeneral(c) then (c, rest.1) else (rest.0, rest.1 + [c])
  }

  /** Reference definition: the channels not named `general`, in order. */
  function NonGeneral(cs: seq<ChannelMeta>): seq<ChannelMeta>
  {
    if cs == [] then []
    else (if IsGeneral(cs[0]) then [] else [cs[0]]) + NonGeneral(cs[1..])
  }

  lemma {:induction false} NonGeneralAppend(a: seq<ChannelMeta>, c: ChannelMeta)
    ensures NonGeneral(a + [c]) == NonGeneral(a) + (if IsGeneral(c) then [] else [c])
  {
    if a != [] {
      assert (a + [c])[1..] == a[1..] + [c];
      NonGeneralAppend(a[1..], c);
    }
  }

  lemma {:induction false} NonGeneralSpec(cs: seq<ChannelMeta>)
    ensures forall c :: c in NonGeneral(cs) <==> c in cs && !IsGeneral(c)
    ensures IsSubsequence(NonGeneral(cs), cs)
  {
    if cs != [] {
      NonGeneralSpec(cs[1..]);
      if !IsGeneral(cs[0]) {
        assert NonGeneral(cs)[1..] == NonGeneral(cs[1..]);
      } else {
        assert NonGeneral(cs) == NonGeneral(cs[1..]);
      }
    }
  }

  /** The fold's list is the non-general channels, in input order. */
  lemma {:induction false} SplitGeneralFiltered(cs: seq<ChannelMeta>, placeholder: ChannelMeta)
    ensures SplitGeneral(cs, placeholder).1 == NonGeneral(cs)
    decreases |cs|
  {
    if cs != [] {
      var n := |cs| - 1;
      SplitGeneralFiltered(cs[..n], placeholder);
      NonGeneralAppend(cs[..n], cs[n]);
      assert cs[..n] + [cs[n]] == cs;
    }
  }

  /** With no channel named `general`, the fold keeps the placeholder. */
  lemma {:induction false} SplitGeneralPlaceholder(cs: seq<ChannelMeta>, placeholder: ChannelMeta)
    requires forall i :: 0 <= i < |cs| ==> !IsGeneral(cs[i])
    ensures SplitGeneral(cs, placeholder).0 == placeholder
    decreases |cs|
  {
    if cs != [] {
      var n := |cs| - 1;
      assert forall i :: 0 <= i < n ==> cs[..n][i] == cs[i];
      SplitGeneralPlaceholder(cs[..n], placeholder);
    }
  }

  /** The fold's general channel is the last channel named `general`. */
  lemma {:induction false} SplitGeneralLast(cs: seq<ChannelMeta>, placeholder: ChannelMeta, k: nat)
    requires k < |cs| && IsGeneral(cs[k])
    requires forall j :: k < j < |cs| ==> !IsGeneral(cs[j])
    ensures SplitGeneral(cs, placeholder).0 == cs[k]
    decreases |cs|
  {
    var n := |cs| - 1;
    if k < n {
      var init := cs[..n];
      assert !IsGeneral(cs[n]);
      assert init[k] == cs[k];
      assert forall j :: k < j < |init| ==> init[j] == cs[j];
      SplitGeneralLast(init, placeholder, k);
    }
  }

  /** The fold keeps every non-general channel in input order, and its
      general channel is the placeholder when the team has none, else the
      LAST channel named `general`. */
  lemma SplitGeneralSpec(cs: seq<ChannelMeta>, placeholder: ChannelMeta)
    ensures SplitGeneral(cs, placeholder).1 == NonGeneral(cs)
    ensures (forall i :: 0 <= i < |cs| ==> !IsGeneral(cs[i])) ==> SplitGeneral(cs, placeholder).0 == placeholder
    ensures forall k :: 0 <= k < |cs| && IsGeneral(cs[k]) && (forall j :: k < j < |cs| ==> !IsGeneral(cs[j]))
                        ==> SplitGeneral(cs, placeholder).0 == cs[k]
  {
    SplitGeneralFiltered(cs, placeholder);
    if forall i :: 0 <= i < |cs| ==> !IsGeneral(cs[i]) {
      SplitGeneralPlaceholder(cs, placeholder);
    }
    forall k | 0 <= k < |cs| && IsGeneral(cs[k]) && (forall j :: k < j < |cs| ==> !IsGeneral(cs[j]))
      ensures SplitGeneral(cs, placeholder).0 == cs[k]
    {
      SplitGeneralLast(cs, placeholder, k);
    }
  }

  function GetChannelsForList(cs: seq<ChannelMeta>, placeholder: ChannelMeta, le: (string, string) -> bool): ChannelLists
  {
    var split := SplitGeneral(cs, placeholder);
    var sorted := SortByName(split.1, le);
    ChannelLists(split.0, [split.0] + sorted, sorted)
  }

  /** The full list is the general channel followed by the filtered list;
      the filtered list is a name-sorted permutation of the channels not
      named `general`. */
  lemma ChannelListsShape(cs: seq<ChannelMeta>, placeholder: ChannelMeta, le: (string, string) -> bool)
    ensures GetChannelsForList(cs, placeholder, le).all
            == [GetChannelsForList(cs, placeholder, le).general] + GetChannelsForList(cs, placeholder, le).filtered
    ensures multiset(GetChannelsForList(cs, placeholder, le).filtered) == multiset(NonGeneral(cs))
    ensures forall c :: c in GetChannelsForList(cs, placeholder, le).filtered <==> c in cs && !IsGeneral(c)
    ensures TotalPreorder(le) ==> SortedByName(GetChannelsForList(cs, placeholder, le).filtered, le)
    ensures (forall i :: 0 <= i < |cs| ==> !IsGeneral(cs[i])) ==> GetChannelsForList(cs, placeholder, le).general == placeholder
  {
    SplitGeneralSpec(cs, placeholder);
    SortByNameSortedPermutation(NonGeneral(cs), le);
    NonGeneralSpec(cs);
    var f := GetChannelsForList(cs, placeholder, le).filtered;
    forall c ensures c in f <==> c in NonGeneral(cs) {
      assert c in f <==> c in multiset(f);
    }
  }

  // ---------------------------------------------------------------------
  // The search filter and the list items

  /** The trimmed, lower-cased filter text; `lower` stands for toLowerCase. */
  function FilterKey(filter: string, lower: string -> string): string {
    lower(Trim(filter))
  }

  function Matching(cs: seq<ChannelMeta>, key: string, lower: string -> string): seq<ChannelMeta>
  {
    if cs == [] then []
    else (if Includes(lower(cs[0].channelname), key) then [cs[0]] else []) + Matching(cs[1..], key, lower)
  }

  /** The channels shown for a filter: all of them while the key is empty. */
  function VisibleChannels(all: seq<ChannelMeta>, filter: string, lower: string -> string): seq<ChannelMeta>
  {
    var key := FilterKey(filter, lower);
    if key == "" then all else Matching(all, key, lower)
  }

  lemma {:induction false} MatchingSpec(cs: seq<ChannelMeta>, key: string, lower: string -> string)
    ensures forall c :: c in Matching(cs, key, lower) <==> c in cs && Includes(lower(c.channelname), key)
    ensures IsSubsequence(Matching(cs, key, lower), cs)
  {
    if cs != [] {
      MatchingSpec(cs[1..], key, lower);
      if Includes(lower(cs[0].channelname), key) {
        assert Matching(cs, key, lower)[1..] == Matching(cs[1..], key, lower);
      } else {
        assert Matching(cs, key, lower) == Matching(cs[1..], key, lower);
      }
    }
  }

  /** An empty key keeps every channel; otherwise exactly the channels whose
      lower-cased name contains the key stay, in their original order. */
  lemma VisibleChannelsSpec(all: seq<ChannelMeta>, filter: string, lower: string -> string)
    ensures FilterKey(filter, lower) == "" ==> VisibleChannels(all, filter, lower) == all
    ensures IsSubsequence(VisibleChannels(all, filter, lower), all)
    ensures FilterKey(filter, lower) != "" ==>
              forall c :: (c in VisibleChannels(all, filter, lower)
                           <==> c in all && Includes(lower(c.channelname), FilterKey(filter, lower)))
  {
    MatchingSpec(all, FilterKey(filter, lower), lower);
    SubsequenceOfSelf(all);
  }

  /** A filter of whitespace only keeps every channel. */
  lemma BlankFilterKeepsAll(all: seq<ChannelMeta>, filter: string, lower: string -> string)
    requires lower("") == ""
    requires forall k :: 0 <= k < |filter| ==> IsJsWhitespace(filter[k])
    ensures VisibleChannels(all, filter, lower) == all
  {
    TrimEmptyIff(filter);
  }

  datatype Item = Header | Row(channelMeta: ChannelMeta, numMembers: nat)

  /** The participant count of a conversation; 0 when it is not known. */
  function NumMembers(participants: map<string, seq<string>>, key: string): nat {
    if key in participants then |participants[key]| else 0
  }

  function Items(channels: seq<ChannelMeta>, filtering: bool, participants: map<string, seq<string>>): seq<Item>
  {
    (if filtering then [] else [Header])
    + seq(|channels|, i requires 0 <= i < |channels| =>
            Row(channels[i], NumMembers(participants, channels[i].conversationIDKey)))
  }

  /** The header heads the list exactly while the search box is not focused;
      after it comes one row per shown channel, in order. */
  lemma ItemsShape(channels: seq<ChannelMeta>, filtering: bool, participants: map<string, seq<string>>)
    ensures Header in Items(channels, filtering, participants) <==> !filtering
    ensures !filtering ==> Items(channels, filtering, participants)[0] == Header
    ensures |Items(channels, filtering, participants)| == |channels| + (if filtering then 0 else 1)
    ensures forall i :: 0 <= i < |channels| ==>
              Items(channels, filtering, participants)[i + (if filtering then 0 else 1)]
                == Row(channels[i], NumMembers(participants, channels[i].conversationIDKey))
  {
    var items := Items(channels, filtering, participants);
    var off := if filtering then 0 else 1;
    if filtering {
      assert forall i :: 0 <= i < |items| ==> items[i].Row?;
    }
  }

  // ---------------------------------------------------------------------
  // The set of checked channels. A JavaScript Set keeps insertion order, so
  // it is a sequence without duplicates here.

  /** The sequence with every occurrence of `x` taken out. */
  function Without(s: seq<string>, x: string): seq<string>
  {
    if s == [] then [] else (if s[0] == x then [] else [s[0]]) + Without(s[1..], x)
  }

  lemma {:induction false} WithoutSpec(s: seq<string>, x: string)
    ensures x !in Without(s, x)
    ensures forall y :: y != x ==> (y in Without(s, x) <==> y in s)
    ensures NoDuplicates(s) ==> NoDuplicates(Without(s, x))
    ensures x !in s ==> Without(s, x) == s
  {
    if s != [] {
      WithoutSpec(s[1..], x);
      var r := Without(s, x);
      if NoDuplicates(s) && s[0] != x {
        assert r == [s[0]] + Without(s[1..], x);
        assert NoDuplicates(s[1..]);
        forall i, j | 0 <= i < j < |r| ensures r[i] != r[j] {
          if i == 0 {
            assert r[j] in Without(s[1..], x);
            assert s[0] !in s[1..];
          } else {
            assert r[i] == Without(s[1..], x)[i - 1];
          }
        }
      }
      if NoDuplicates(s) && s[0] == x {
        assert NoDuplicates(s[1..]);
      }
    }
  }

  lemma {:induction false} WithoutAppend(s: seq<string>, x: string)
    ensures Without(s + [x], x) == Without(s, x)
  {
    if s != [] {
      assert (s + [x])[1..] == s[1..] + [x];
      WithoutAppend(s[1..], x);
    }
  }

  /** onSelect: the general key is ignored; any other key is taken out if
      checked and appended if not. */
  function Toggled(sel: seq<string>, key: string, generalKey: string): seq<string>
  {
    if key == generalKey then sel
    else if key in sel then Without(sel, key)
    else sel + [key]
  }

  /** Toggling the general key changes nothing; toggling another key flips
      its membership and keeps every other key's, and keeps the sequence
      free of duplicates. */
  lemma ToggledMembership(sel: seq<string>, key: string, generalKey: string)
    requires NoDuplicates(sel)
    ensures NoDuplicates(Toggled(sel, key, generalKey))
    ensures key == generalKey ==> Toggled(sel, key, generalKey) == sel
    ensures key != generalKey ==> (key in Toggled(sel, key, generalKey) <==> key !in sel)
    ensures forall x :: x != key ==> (x in Toggled(sel, key, generalKey) <==> x in sel)
  {
    WithoutSpec(sel, key);
  }

  /** Toggling a key twice restores the set of checked keys. When the key was
      not checked the sequence itself comes back; when it was, it returns at
      the end, as a JavaScript Set re-adds it. */
  lemma ToggleTwice(sel: seq<string>, key: string, generalKey: string)
    requires NoDuplicates(sel)
    ensures forall x :: x in Toggled(Toggled(sel, key, generalKey), key, generalKey) <==> x in sel
    ensures key !in sel ==> Toggled(Toggled(sel, key, generalKey), key, generalKey) == sel
    ensures key != generalKey && key in sel ==>
              Toggled(Toggled(sel, key, generalKey), key, generalKey) == Without(sel, key) + [key]
  {
    ToggledMembership(sel, key, generalKey);
    ToggledMembership(Toggled(sel, key, generalKey), key, generalKey);
    if key != generalKey && key !in sel {
      WithoutAppend(sel, key);
      WithoutSpec(sel, key);
    }
    if key != generalKey && key in sel {
      WithoutSpec(sel, key);
    }
  }

  /** `new Set(s)`: the first occurrence of each element, in order. */
  function DedupInto(acc: seq<string>, s: seq<string>): seq<string>
    decreases |s|
  {
    if s == [] then acc else DedupInto(if s[0] in acc then acc else acc + [s[0]], s[1..])
  }

  lemma AppendFresh(acc: seq<string>, x: string)
    requires NoDuplicates(acc) && x !in acc
    ensures NoDuplicates(acc + [x])
  {
    var r := acc + [x];
    forall i, j | 0 <= i < j < |r| ensures r[i] != r[j] {
      if j == |acc| {
        assert r[i] == acc[i];
      }
    }
  }

  /** The built set has no duplicates and holds exactly the elements seen. */
  lemma {:induction false} DedupIntoSpec(acc: seq<string>, s: seq<string>)
    requires NoDuplicates(acc)
    ensures NoDuplicates(DedupInto(acc, s))
    ensures forall x :: x in DedupInto(acc, s) <==> x in acc || x in s
    decreases |s|
  {
    if s != [] {
      var acc' := if s[0] in acc then acc else acc + [s[0]];
      if s[0] !in acc {
        AppendFresh(acc, s[0]);
      }
      DedupIntoSpec(acc', s[1..]);
      assert forall x :: x in s <==> x == s[0] || x in s[1..];
    }
  }

  /** When nothing repeats, building the set keeps the list as it is. */
  lemma {:induction false} DedupIntoDistinct(acc: seq<string>, s: seq<string>)
    requires NoDuplicates(acc + s)
    ensures DedupInto(acc, s) == acc + s
    decreases |s|
  {
    if s == [] {
      assert acc + s == acc;
    } else {
      assert s[0] !in acc by {
        forall i | 0 <= i < |acc| ensures acc[i] != s[0] {
          assert acc[i] == (acc + s)[i] && s[0] == (acc + s)[|acc|];
        }
      }
      assert (acc + [s[0]]) + s[1..] == acc + s;
      DedupIntoDistinct(acc + [s[0]], s[1..]);
    }
  }

  /** onSelectAll: the keys of the filtered (non-general) channels. */
  function SelectAllKeys(filtered: seq<ChannelMeta>): seq<string> {
    DedupInto([], KeysOf(filtered))
  }

  /** Select-all checks exactly the keys of the non-general channels, each once. */
  lemma SelectAllKeysSpec(filtered: seq<ChannelMeta>)
    ensures NoDuplicates(SelectAllKeys(filtered))
    ensures forall k :: k in SelectAllKeys(filtered) <==> k in KeysOf(filtered)
  {
    DedupIntoSpec([], KeysOf(filtered));
  }

  /** With distinct keys, select-all holds the key list itself, in order. */
  lemma SelectAllKeysDistinct(filtered: seq<ChannelMeta>)
    requires NoDuplicates(KeysOf(filtered))
    ensures SelectAllKeys(filtered) == KeysOf(filtered)
  {
    assert [] + KeysOf(filtered) == KeysOf(filtered);
    DedupIntoDistinct([], KeysOf(filtered));
  }

  /** A row's check mark: checked when selected, and always for `general`. */
  function RowChecked(sel: seq<string>, key: string, generalKey: string): bool {
    key in sel || key == generalKey
  }

  /** The general row is checked whatever is selected; after select-none it
      is the only checked row; after select-all every non-general row is. */
  lemma RowCheckedSpec(sel: seq<string>, filtered: seq<ChannelMeta>, key: string, generalKey: string)
    ensures RowChecked(sel, generalKey, generalKey)
    ensures RowChecked([], key, generalKey) <==> key == generalKey
    ensures forall i :: 0 <= i < |filtered| ==> RowChecked(SelectAllKeys(filtered), filtered[i].conversationIDKey, generalKey)
  {
    SelectAllKeysSpec(filtered);
  }

  datatype HeaderLink = SelectAllLink | ClearLink

  /** The header's link: none in self mode; otherwise "Clear" when as many
      channels are selected as the filtered list holds, else "Select all". */
  function HeaderLinkFor(mode: Mode, selectedCount: nat, filtered: seq<ChannelMeta>): Option<HeaderLink>
  {
    var allSelected := selectedCount == |filtered|;
    if mode == Self then None
    else if allSelected then Some(ClearLink) else Some(SelectAllLink)
  }

  lemma {:induction false} DistinctCard(s: seq<string>)
    requires NoDuplicates(s)
    ensures |set x | x in s| == |s|
  {
    if s != [] {
      var init := s[..|s| - 1];
      assert NoDuplicates(init);
      DistinctCard(init);
      assert (set x | x in s) == (set x | x in init) + {s[|s| - 1]};
      assert s[|s| - 1] !in init;
    }
  }

  lemma SubsetSameCard(a: set<string>, b: set<string>)
    requires a <= b && |a| == |b|
    ensures a == b
  {
    if a != b {
      var x :| x in b && x !in a;
      assert a <= b - {x};
      assert |b - {x}| == |b| - 1;
      SubsetCard(a, b - {x});
    }
  }

  lemma {:induction false} SubsetCard(a: set<string>, b: set<string>)
    requires a <= b
    ensures |a| <= |b|
    decreases |a|
  {
    if a != {} {
      var x :| x in a;
      SubsetCard(a - {x}, b - {x});
    }
  }

  /** Every selected key is the key of a listed non-general channel. */
  predicate SelectionListed(sel: seq<string>, filtered: seq<ChannelMeta>) {
    forall k :: k in sel ==> k in KeysOf(filtered)
  }

  /** When every selected key is a filtered channel's key and keys are
      distinct, the header's count test means exactly: every filtered row
      is checked. */
  lemma AllSelectedIffEveryRowSelected(sel: seq<string>, filtered: seq<ChannelMeta>)
    requires NoDuplicates(sel) && NoDuplicates(KeysOf(filtered))
    requires SelectionListed(sel, filtered)
    ensures HeaderLinkFor(Others, |sel|, filtered) == Some(ClearLink)
            <==> forall i :: 0 <= i < |filtered| ==> filtered[i].conversationIDKey in sel
  {
    var keys := KeysOf(filtered);
    var a := set x | x in sel;
    var b := set x | x in keys;
    DistinctCard(sel);
    DistinctCard(keys);
    if |sel| == |filtered| {
      SubsetSameCard(a, b);
      forall i | 0 <= i < |filtered| ensures filtered[i].conversationIDKey in sel {
        assert keys[i] in b;
      }
    }
    if forall i :: 0 <= i < |filtered| ==> filtered[i].conversationIDKey in sel {
      forall x | x in b ensures x in a {
        var i :| 0 <= i < |keys| && keys[i] == x;
      }
      assert a == b;
    }
  }

  /** The premise of `AllSelectedIffEveryRowSelected` is kept by every way
      the selection changes while the list stays the same: toggling a row
      (the general row or a filtered one), select-all and select-none. */
  lemma SelectionStaysListed(sel: seq<string>, key: string, generalKey: string, filtered: seq<ChannelMeta>)
    requires NoDuplicates(sel) && SelectionListed(sel, filtered)
    requires key == generalKey || key in KeysOf(filtered)
    ensures SelectionListed(Toggled(sel, key, generalKey), filtered)
    ensures SelectionListed(SelectAllKeys(filtered), filtered)
    ensures SelectionListed([], filtered)
  {
    ToggledMembership(sel, key, generalKey);
    SelectAllKeysSpec(filtered);
  }

  /** After select-all over distinct keys the header offers "Clear"; after
      select-none it offers "Select all" unless there is nothing to select. */
  lemma HeaderAfterBulkSelect(filtered: seq<ChannelMeta>)
    requires NoDuplicates(KeysOf(filtered))
    ensures HeaderLinkFor(Others, |SelectAllKeys(filtered)|, filtered) == Some(ClearLink)
    ensures HeaderLinkFor(Others, 0, filtered) == Some(SelectAllLink) <==> filtered != []
  {
    SelectAllKeysDistinct(filtered);
  }

  // ---------------------------------------------------------------------
  // Submitting

  datatype FinishAction = NavigateUp | Submit(request: BulkAddRequest)

  /** onFinish: nothing selected cancels; otherwise every selected key, in
      selection order, is submitted with the resolved usernames. */
  function FinishActionFor(sel: seq<string>, usernames: seq<string>): (r: FinishAction)
    ensures r.NavigateUp? <==> sel == []
    ensures r.Submit? ==> r.request.usernames == usernames
                          && (forall k :: k in r.request.conversations <==> k in sel)
                          && |r.request.conversations| == |sel|
  {
    if |sel| == 0 then NavigateUp else Submit(BulkAddRequest(sel, usernames))
  }

  /** The general key never reaches the submit: toggling ignores it, and
      select-all only takes non-general channels. */
  lemma GeneralNeverSubmitted(sel: seq<string>, key: string, generalKey: string, filtered: seq<ChannelMeta>)
    requires generalKey !in sel
    requires forall i :: 0 <= i < |filtered| ==> filtered[i].conversationIDKey != generalKey
    ensures generalKey !in Toggled(sel, key, generalKey)
    ensures generalKey !in SelectAllKeys(filtered)
  {
    WithoutSpec(sel, key);
    SelectAllKeysSpec(filtered);
  }

  /** The screen's selection and waiting flag. */
  class ChannelSelection {
    var selected: seq<string>
    var waiting: bool

    ghost predicate Valid()
      reads this
    {
      NoDuplicates(selected)
    }

    constructor ()
      ensures Valid() && selected == [] && !waiting
    {
      selected := [];
      waiting := false;
    }

    method Toggle(key: string, generalKey: string)
      requires Valid()
      modifies this
      ensures Valid()
      ensures selected == Toggled(old(selected), key, generalKey)
      ensures waiting == old(waiting)
    {
      if key == generalKey {
        return;
      }
      if key in selected {
        selected := Without(selected, key);
      } else {
        selected := selected + [key];
      }
      ToggledMembership(old(selected), key, generalKey);
    }

    method SelectAll(filtered: seq<ChannelMeta>)
      modifies this
      ensures Valid()
      ensures selected == SelectAllKeys(filtered)
      ensures waiting == old(waiting)
    {
      selected := DedupInto([], KeysOf(filtered));
      SelectAllKeysSpec(filtered);
    }

    method SelectNone()
      modifies this
      ensures Valid() && selected == [] && waiting == old(waiting)
    {
      selected := [];
    }

    /** onFinish: with nothing selected, cancel and leave the state alone;
        otherwise mark waiting and issue the bulk-add request. */
    method Finish(usernames: seq<string>) returns (action: FinishAction)
      modifies this
      ensures action == FinishActionFor(old(selected), usernames)
      ensures selected == old(selected)
      ensures waiting == (old(waiting) || old(selected) != [])
    {
      if |selected| == 0 {
        action := NavigateUp;
        return;
      }
      waiting := true;
      action := Submit(BulkAddRequest(selected, usernames));
    }

    /** The bulk-add call succeeded: stop waiting and leave the screen. */
    method SubmitSucceeded() returns (action: FinishAction)
      modifies this
      ensures !waiting && selected == old(selected) && action == NavigateUp
    {
      waiting := false;
      action := NavigateUp;
    }

    /** The bulk-add call failed: stop waiting; the selection stays for a retry. */
    method SubmitFailed()
      modifies this
      ensures !waiting && selected == old(selected)
    {
      waiting := false;
    }
  }

  // ---------------------------------------------------------------------
  // Usernames and title

  /** The usernames to add, as written: `routeUsernames ?? mode === 'self'`
      is the condition, so any supplied route list (even empty) yields the
      current user. */
  function ResolveUsernames(routeUsernames: Option<seq<string>>, mode: Mode, myUsername: string): (r: seq<string>)
    ensures |r| <= 1
    ensures forall u :: u in r ==> u == myUsername
    ensures r == [] <==> routeUsernames.None? && mode == Others
  {
    var condition := match routeUsernames
      case Some(_) => true
      case None => mode == Self;
    if condition then [myUsername] else []
  }

  /** The evident intent: the route's usernames when given, else the current
      user in self mode and nobody in others mode. */
  function ResolveUsernamesIntended(routeUsernames: Option<seq<string>>, mode: Mode, myUsername: string): (r: seq<string>)
    ensures routeUsernames.Some? ==> r == routeUsernames.value
    ensures routeUsernames.None? && mode == Self ==> r == [myUsername]
    ensures routeUsernames.None? && mode == Others ==> r == []
  {
    match routeUsernames
    case Some(us) => us
    case None => if mode == Self then [myUsername] else []
  }

  function Title(mode: Mode, usernames: seq<string>): string {
    if mode == Self then "Browse all channels"
    else "Add" + (if |usernames| == 1 then " " + usernames[0] else "") + " to..."
  }

  /** Inviting "alice" from her member page: as written, the screen titles
      itself with and submits the current user instead. */
  lemma RouteUsernamesIgnored()
    ensures ResolveUsernames(Some(["alice"]), Others, "me") == ["me"]
    ensures Title(Others, ResolveUsernames(Some(["alice"]), Others, "me")) == "Add me to..."
    ensures ResolveUsernamesIntended(Some(["alice"]), Others, "me") == ["alice"]
    ensures Title(Others, ResolveUsernamesIntended(Some(["alice"]), Others, "me")) == "Add alice to..."
  {
  }

  /** The two readings agree exactly when no route list is supplied. */
  lemma ResolutionsAgreeWithoutRouteList(routeUsernames: Option<seq<string>>, mode: Mode, myUsername: string)
    ensures routeUsernames.None? ==>
              ResolveUsernames(routeUsernames, mode, myUsername) == ResolveUsernamesIntended(routeUsernames, mode, myUsername)
    ensures routeUsernames.Some? && routeUsernames.value != [myUsername] ==>
              ResolveUsernames(routeUsernames, mode, myUsername) != ResolveUsernamesIntended(routeUsernames, mode, myUsername)
  {
  }
}
