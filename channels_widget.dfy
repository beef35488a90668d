/** The channel picker of the add-members wizard: a row of pills, one per
    chosen channel, and an input that offers the team's other channels. On
    desktop the input is an autocompleting search field; on phones it opens
    a channel popup. */
module ChannelsWidget {
  import opened Common

  // ---------------------------------------------------------------------
  // Autocomplete candidates (desktop)

  /** One autocomplete entry: the text shown and the channel it adds. */
  datatype Candidate = Candidate(labelText: string, value: ChannelNameID)

  /** `selected.find(...)` by conversation key finds something. */
  predicate AlreadySelected(selected: seq<ChannelNameID>, key: string) {
    exists j :: 0 <= j < |selected| && selected[j].conversationIDKey == key
  }

  /** The filter a channel has to pass to be offered. */
  predicate Eligible(c: ChannelMeta, selected: seq<ChannelNameID>, disableGeneral: bool) {
    !AlreadySelected(selected, c.conversationIDKey) && (!disableGeneral || c.channelname != GeneralName)
  }

  /** The entry offered for a channel. */
  function CandidateFor(c: ChannelMeta): Candidate {
    Candidate("#" + c.channelname, ChannelNameID(c.channelname, c.conversationIDKey))
  }

  /** The channel an entry was made from. */
  function MetaOf(x: Candidate): ChannelMeta {
    ChannelMeta(x.value.conversationIDKey, x.value.channelname)
  }

  /** `channelItems`: the team's channels, filtered, then mapped to entries.
      Every entry is made from an eligible channel of the list, and every
      eligible channel of the list has its entry. */
  function Candidates(channels: seq<ChannelMeta>, selected: seq<ChannelNameID>, disableGeneral: bool): (r: seq<Candidate>)
    ensures |r| <= |channels|
    ensures forall x :: x in r ==> MetaOf(x) in channels && Eligible(MetaOf(x), selected, disableGeneral) && x == CandidateFor(MetaOf(x))
    ensures forall c :: c in channels && Eligible(c, selected, disableGeneral) ==> CandidateFor(c) in r
  {
    if channels == [] then []
    else
      var rest := Candidates(channels[1..], selected, disableGeneral);
      assert forall c :: c in channels ==> c == channels[0] || c in channels[1..];
      (if Eligible(channels[0], selected, disableGeneral) then [CandidateFor(channels[0])] else []) + rest
  }

  function CandidatesOfAll(channels: seq<ChannelMeta>): (r: seq<Candidate>)
    ensures |r| == |channels|
    ensures forall i :: 0 <= i < |channels| ==> r[i] == CandidateFor(channels[i])
  {
    seq(|channels|, i requires 0 <= i < |channels| => CandidateFor(channels[i]))
  }

  /** The entries keep the channels' order: they are the entries of all
      channels with the ineligible ones dropped. */
  lemma {:induction false} CandidatesKeepOrder(channels: seq<ChannelMeta>, selected: seq<ChannelNameID>, disableGeneral: bool)
    ensures IsSubsequence(Candidates(channels, selected, disableGeneral), CandidatesOfAll(channels))
  {
    if channels != [] {
      CandidatesKeepOrder(channels[1..], selected, disableGeneral);
      var all := CandidatesOfAll(channels);
      assert all[1..] == CandidatesOfAll(channels[1..]);
      var r := Candidates(channels, selected, disableGeneral);
      if Eligible(channels[0], selected, disableGeneral) {
        assert r[0] == all[0] && r[1..] == Candidates(channels[1..], selected, disableGeneral);
      } else {
        assert r == Candidates(channels[1..], selected, disableGeneral);
        if r != [] {
          assert IsSubsequence(r, all[1..]);
        }
      }
    }
  }

  /** What the entries say: an entry is never an already selected channel,
      never `general` while general is disabled, and its label is `#` and
      the name. A channel is offered exactly when it is not selected and,
      when general is disabled, is not `general`. */
  lemma CandidatesSpec(channels: seq<ChannelMeta>, selected: seq<ChannelNameID>, disableGeneral: bool)
    ensures forall x :: x in Candidates(channels, selected, disableGeneral) ==>
              && !AlreadySelected(selected, x.value.conversationIDKey)
              && (disableGeneral ==> x.value.channelname != GeneralName)
              && x.labelText == "#" + x.value.channelname
              && ChannelMeta(x.value.conversationIDKey, x.value.channelname) in channels
    ensures forall i :: 0 <= i < |channels| ==>
              (CandidateFor(channels[i]) in Candidates(channels, selected, disableGeneral)
               <==> && !AlreadySelected(selected, channels[i].conversationIDKey)
                    && (!disableGeneral || channels[i].channelname != GeneralName))
  {
    var r := Candidates(channels, selected, disableGeneral);
    forall i | 0 <= i < |channels| && CandidateFor(channels[i]) in r
      ensures Eligible(channels[i], selected, disableGeneral)
    {
      assert MetaOf(CandidateFor(channels[i])) == channels[i];
    }
  }

  /** The widget hands its own channel list to the input as `selected`, so
      no entry is a channel that already has a pill. */
  lemma NoCandidateHasAPill(teamChannels: seq<ChannelMeta>, chosen: seq<ChannelNameID>, disableGeneral: bool)
    ensures forall x, p :: x in Candidates(teamChannels, chosen, disableGeneral) && p in chosen ==>
              x.value.conversationIDKey != p.conversationIDKey
  {
    CandidatesSpec(teamChannels, chosen, disableGeneral);
    forall x, p | x in Candidates(teamChannels, chosen, disableGeneral) && p in chosen
      ensures x.value.conversationIDKey != p.conversationIDKey
    {
      var j :| 0 <= j < |chosen| && chosen[j] == p;
      assert !AlreadySelected(chosen, x.value.conversationIDKey);
    }
  }

  // ---------------------------------------------------------------------
  // The desktop input's state

  /** The search field's text. */
  datatype DesktopInput = DesktopInput(filter: string)

  const InitialDesktopInput: DesktopInput := DesktopInput("")

  /** What a callback asks `onAdd` to add, and the input state after it. */
  datatype Outcome<S> = Outcome(toAdd: seq<ChannelNameID>, state: S)

  /** `onChange={setFilter}`. */
  function SetFilter(st: DesktopInput, text: string): (r: DesktopInput)
    ensures r.filter == text
  {
    st.(filter := text)
  }

  /** `onSelect`: add the one chosen channel and empty the search field. */
  function SelectCandidate(st: DesktopInput, value: ChannelNameID): (r: Outcome<DesktopInput>)
    ensures r.toAdd == [value]
    ensures r.state == InitialDesktopInput
  {
    Outcome([value], st.(filter := ""))
  }

  /** Picking an offered entry adds exactly one channel of the team that was
      not selected before, whatever was typed, and leaves the field as it
      started. */
  lemma SelectingACandidateAddsOneNewChannel(st: DesktopInput, channels: seq<ChannelMeta>, selected: seq<ChannelNameID>,
                                             disableGeneral: bool, x: Candidate)
    requires x in Candidates(channels, selected, disableGeneral)
    ensures |SelectCandidate(st, x.value).toAdd| == 1
    ensures !AlreadySelected(selected, SelectCandidate(st, x.value).toAdd[0].conversationIDKey)
    ensures ChannelMeta(x.value.conversationIDKey, x.value.channelname) in channels
    ensures SelectCandidate(st, x.value).state == SelectCandidate(SetFilter(st, "anything"), x.value).state
  {
    CandidatesSpec(channels, selected, disableGeneral);
  }

  // ---------------------------------------------------------------------
  // The phone input's state

  datatype MobileInput = MobileInput(showingPopup: bool)

  const InitialMobileInput: MobileInput := MobileInput(false)

  /** Tapping the dummy input opens the popup. */
  function OpenPopup(st: MobileInput): (r: MobileInput)
    ensures r.showingPopup
  {
    st.(showingPopup := true)
  }

  /** The popup's cancel closes it and adds nothing. */
  function CancelPopup(st: MobileInput): (r: Outcome<MobileInput>)
    ensures r.toAdd == [] && !r.state.showingPopup
  {
    Outcome([], st.(showingPopup := false))
  }

  /** `onComplete`: close the popup and pass the chosen channels on as they are. */
  function CompletePopup(st: MobileInput, channels: seq<ChannelNameID>): (r: Outcome<MobileInput>)
    ensures r.toAdd == channels
    ensures !r.state.showingPopup
  {
    Outcome(channels, st.(showingPopup := false))
  }

  /** Whatever happened before, closing the popup (by cancel or by
      completing) returns the input to its initial state, and reopening
      it shows it again. */
  lemma PopupClosesToInitial(st: MobileInput, channels: seq<ChannelNameID>)
    ensures CancelPopup(st).state == InitialMobileInput
    ensures CompletePopup(st, channels).state == InitialMobileInput
    ensures CompletePopup(OpenPopup(st), channels) == CompletePopup(st, channels)
    ensures OpenPopup(CompletePopup(st, channels).state) == OpenPopup(st)
  {
  }

  // ---------------------------------------------------------------------
  // Pills

  /** A pill shows the channel's name; `onRemove` is the channel that its
      remove icon hands to `onRemoveChannel`, when it has one. */
  datatype Pill = Pill(channelname: string, onRemove: Option<ChannelNameID>)

  function PillFor(ch: ChannelNameID): Pill {
    Pill(ch.channelname, if ch.channelname == GeneralName then None else Some(ch))
  }

  /** Exactly one pill per chosen channel, in input order, showing its name;
      the `general` pill cannot be removed, and every other pill removes its
      own channel. */
  function Pills(channels: seq<ChannelNameID>): (r: seq<Pill>)
    ensures |r| == |channels|
    ensures forall i :: 0 <= i < |channels| ==> r[i].channelname == channels[i].channelname
    ensures forall i :: 0 <= i < |channels| ==> (r[i].onRemove.None? <==> channels[i].channelname == GeneralName)
    ensures forall i :: 0 <= i < |channels| && r[i].onRemove.Some? ==> r[i].onRemove.value == channels[i]
  {
    seq(|channels|, i requires 0 <= i < |channels| => PillFor(channels[i]))
  }

  /** Removing through any pill never names `general`, and only names a
      channel that is in the list. */
  lemma RemovalNeverTargetsGeneral(channels: seq<ChannelNameID>, i: nat)
    requires i < |Pills(channels)| && Pills(channels)[i].onRemove.Some?
    ensures Pills(channels)[i].onRemove.value.channelname != GeneralName
    ensures Pills(channels)[i].onRemove.value in channels
  {
  }
}
