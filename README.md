# Team channel and member selection, modelled in Dafny

This project models the selection logic of three screens of the Keybase
client's team pages.

- **Add to channels** (`AddToChannels`, add_to_channels.dfy). The team's channels are split into `#general` and the rest, and the rest is sorted by name. A search filter applies, and the list gets a header row. The user toggles a set of selected conversation keys, which `#general` is pinned out of. Select all and select none replace the set. Finish either cancels or submits one bulk-add request, and drives a `waiting` flag.
- **Add-members wizard, confirm page** (`AddMembersConfirm`, confirm.dfy):
  - the "person"/"people" noun and the email-only test;
  - the submit state machine, which adds the members and then adds them to the default channels;
  - the collapsed member list on phones;
  - the role labels;
  - the sentence listing the default channels.
- **Channels widget** (`ChannelsWidget`, channels_widget.dfy): the autocomplete entries, the desktop and phone inputs, and the pills of the channels already chosen.

Two shared modules support these. `Common` holds the channel records and the
JavaScript string operations the screens use (`trim`, `includes`,
`endsWith`). `Sorting` holds the sort by channel name, an insertion sort.

Host behaviour that the model does not define is passed in as a parameter:
- `le` is the collation, read as `localeCompare(a, b) <= 0`;
- `lower` is `toLowerCase`;
- `placeholder` is the empty conversation meta that heads the list when there is no `#general`;
- `generalKey` is the key of that head;
- `newTeamWizardTeamID` is the team id that marks a team still being created.

Each RPC is modelled as the effect a callback asks for. The RPC's outcome is an event that drives the next step.

Parts that update state in place are modelled imperatively:
- the selection set of the add-to-channels screen is the class `AddToChannels.ChannelSelection`;
- the `waiting`/`error` pair of the confirm page is the class `AddMembersConfirm.ConfirmSubmit`.

Each of their methods is specified by a pure function: `Toggled`, `SelectAllKeys`, `FinishActionFor` and `Step`. The properties are proved about those functions.

A JavaScript `Set` is modelled as a sequence without duplicates, in insertion order. That is the order `[...selected]` lists it in.

## Model

| member | source | states |
|---|---|---|
| Common.KeysOf | shared/teams/team/member/add-to-channels.tsx:77 | the conversation keys of a channel list, one per channel, in order |
| Common.IncludesIff | shared/teams/team/member/add-to-channels.tsx:55 | `includes` holds exactly when the substring occurs at some position |
| Common.SkipLeading | shared/teams/team/member/add-to-channels.tsx:52 | the scan passes only whitespace and stops at the end or at the first non-whitespace character |
| Common.SkipTrailing | shared/teams/team/member/add-to-channels.tsx:52 | the backward scan passes only whitespace and stops at the lower bound or just after a non-whitespace character |
| Common.TrimIsInnerSlice | shared/teams/team/member/add-to-channels.tsx:52 | `trim` yields a contiguous slice with only whitespace on either side of it, and the slice neither starts nor ends with whitespace |
| Common.TrimEmptyIff | shared/teams/team/member/add-to-channels.tsx:52-54 | a filter trims to empty exactly when it is all whitespace |
| Common.TrimIdempotent | shared/teams/team/member/add-to-channels.tsx:52 | trimming twice is trimming once |
| Sorting.InsertByNamePermutes | shared/teams/team/member/add-to-channels.tsx:29 | inserting one channel adds exactly that channel to the multiset |
| Sorting.InsertByNameLowerBound | shared/teams/team/member/add-to-channels.tsx:29 | a name no greater than the inserted channel and than every listed one is no greater than anything in the result |
| Sorting.InsertByNameSorted | shared/teams/team/member/add-to-channels.tsx:29 | inserting into a list sorted by name keeps it sorted, for any total preorder |
| Sorting.SortByNameSortedPermutation | shared/teams/team/member/add-to-channels.tsx:29 | the sorted list is a permutation of the input, and, for a total preorder, is ordered by name |
| AddToChannels.NonGeneralAppend | shared/teams/team/member/add-to-channels.tsx:23-25 | one step of the reduce keeps a non-general channel at the end of the list and drops a general one |
| AddToChannels.NonGeneralSpec | shared/teams/team/member/add-to-channels.tsx:23-27 | the list holds exactly the input's non-general channels, in input order |
| AddToChannels.SplitGeneralSpec | shared/teams/team/member/add-to-channels.tsx:21-28 | the reduce collects the non-general channels; general is the placeholder when none is named `general`, else the last channel named `general` |
| AddToChannels.ChannelListsShape | shared/teams/team/member/add-to-channels.tsx:21-35 | the full list is general followed by the filtered list; the filtered list is a permutation of the non-general channels, sorted by name for a total preorder; the placeholder heads the list when there is no general |
| AddToChannels.MatchingSpec | shared/teams/team/member/add-to-channels.tsx:55 | the kept channels are exactly those whose lowercased name includes the key, in their original order |
| AddToChannels.VisibleChannelsSpec | shared/teams/team/member/add-to-channels.tsx:51-56 | an empty key keeps every channel; otherwise only matching channels are kept, in order |
| AddToChannels.BlankFilterKeepsAll | shared/teams/team/member/add-to-channels.tsx:52-56 | a filter of whitespace only keeps every channel |
| AddToChannels.ItemsShape | shared/teams/team/member/add-to-channels.tsx:57-64 | the header item is present, and first, exactly when not filtering; then there is one row per channel, in order, with the channel's participant count or 0 |
| AddToChannels.WithoutSpec | shared/teams/team/member/add-to-channels.tsx:69 | `delete` removes the key and keeps every other element, and keeps the set free of duplicates |
| AddToChannels.WithoutAppend | shared/teams/team/member/add-to-channels.tsx:69-72 | deleting a key just added restores the set as it was before the add |
| AddToChannels.ToggledMembership | shared/teams/team/member/add-to-channels.tsx:66-74 | toggling the general key changes nothing; toggling any other key flips that key's membership only; the set stays duplicate-free |
| AddToChannels.ToggleTwice | shared/teams/team/member/add-to-channels.tsx:66-74 | toggling twice restores the same set of keys, and exactly the same order when the key was absent |
| AddToChannels.AppendFresh | shared/teams/team/member/add-to-channels.tsx:72 | adding a key that is not in the set keeps it free of duplicates |
| AddToChannels.DedupIntoSpec | shared/teams/team/member/add-to-channels.tsx:77 | building a `Set` from a list gives no duplicates and exactly the keys of the list |
| AddToChannels.DedupIntoDistinct | shared/teams/team/member/add-to-channels.tsx:77 | building a `Set` from a list of distinct keys keeps the list as it is, in order |
| AddToChannels.SelectAllKeysSpec | shared/teams/team/member/add-to-channels.tsx:76-77 | select all holds exactly the keys of the non-general channels, each once |
| AddToChannels.SelectAllKeysDistinct | shared/teams/team/member/add-to-channels.tsx:76-77 | with distinct keys, select all holds the key list itself, in list order |
| AddToChannels.RowCheckedSpec | shared/teams/team/member/add-to-channels.tsx:127-130 | the general row is always checked; with an empty selection only the general row is checked; after select all every listed row is checked |
| AddToChannels.AllSelectedIffEveryRowSelected | shared/teams/team/member/add-to-channels.tsx:105-118 | when the selection holds only listed keys, the header's count test offers "Clear" exactly when every non-general channel is selected, and "Select all" otherwise |
| AddToChannels.SelectionStaysListed | shared/teams/team/member/add-to-channels.tsx:66-78 | while the channel list stays the same, toggling any row, select all and select none keep every selected key a listed non-general channel's key, which is what the header's count test relies on |
| AddToChannels.HeaderAfterBulkSelect | shared/teams/team/member/add-to-channels.tsx:76-118 | after select all, the header offers "Clear"; with nothing selected it offers "Select all" exactly when there are channels |
| AddToChannels.FinishActionFor | shared/teams/team/member/add-to-channels.tsx:86-93 | finishing navigates up exactly when nothing is selected; otherwise it submits the selected keys with the resolved usernames |
| AddToChannels.GeneralNeverSubmitted | shared/teams/team/member/add-to-channels.tsx:66-93 | the general key never enters the selection, so it is never submitted |
| AddToChannels.ChannelSelection.constructor | shared/teams/team/member/add-to-channels.tsx:65-85 | the screen starts with nothing selected and not waiting |
| AddToChannels.ChannelSelection.Toggle | shared/teams/team/member/add-to-channels.tsx:66-75 | the selection becomes `Toggled` of the old one; waiting is unchanged |
| AddToChannels.ChannelSelection.SelectAll | shared/teams/team/member/add-to-channels.tsx:76-77 | the selection becomes the keys of the filtered list |
| AddToChannels.ChannelSelection.SelectNone | shared/teams/team/member/add-to-channels.tsx:78 | the selection becomes empty |
| AddToChannels.ChannelSelection.Finish | shared/teams/team/member/add-to-channels.tsx:86-93 | the action is `FinishActionFor` of the selection; waiting is set exactly when something is submitted |
| AddToChannels.ChannelSelection.SubmitSucceeded | shared/teams/team/member/add-to-channels.tsx:94-97 | waiting is cleared and the screen navigates up |
| AddToChannels.ChannelSelection.SubmitFailed | shared/teams/team/member/add-to-channels.tsx:98-101 | waiting is cleared and the screen stays |
| AddToChannels.ResolveUsernames | shared/teams/team/member/add-to-channels.tsx:44-45 | as written: the list is at most the current user, and is empty exactly when no route list is given in others mode |
| AddToChannels.ResolveUsernamesIntended | shared/teams/team/member/add-to-channels.tsx:44-45 | the route list when given, else the current user in self mode, else nobody |
| AddToChannels.RouteUsernamesIgnored | shared/teams/team/member/add-to-channels.tsx:44-45 | inviting alice as written titles the screen "Add me to..." (title at lines 139-140), where "Add alice to..." was intended |
| AddToChannels.ResolutionsAgreeWithoutRouteList | shared/teams/team/member/add-to-channels.tsx:44-45 | the two readings agree without a route list, and differ for any route list other than the current user alone |
| AddMembersConfirm.Noun | shared/teams/add-members-wizard/confirm.tsx:25 | "person" exactly for one member, "people" otherwise |
| AddMembersConfirm.FirstNonEmail | shared/teams/add-members-wizard/confirm.tsx:29 | `findIndex` is -1 exactly when every assertion ends with `@email`; otherwise it is the first index that does not |
| AddMembersConfirm.OnlyEmails | shared/teams/add-members-wizard/confirm.tsx:26-31 | there is at least one member, and every assertion ends with `@email` |
| AddMembersConfirm.EmailInviteMessage | shared/teams/add-members-wizard/confirm.tsx:47 | a note is sent exactly when one was typed and is not empty, and then it is sent unchanged |
| AddMembersConfirm.Users | shared/teams/add-members-wizard/confirm.tsx:50-53 | one user entry per member, in order, with that member's assertion and role |
| AddMembersConfirm.Assertions | shared/teams/add-members-wizard/confirm.tsx:65 | the members' assertions, in order |
| AddMembersConfirm.DefaultChannelKeys | shared/teams/add-members-wizard/confirm.tsx:62-64 | every non-general default channel's key is requested, and only such keys; with no general, every channel is requested |
| AddMembersConfirm.NewTeamWizardMakesNoCall | shared/teams/add-members-wizard/confirm.tsx:23-41 | completing from the new-team wizard only finishes it, with no RPC and no state change |
| AddMembersConfirm.NewTeamWizardNeverCalls | shared/teams/add-members-wizard/confirm.tsx:23-41 | from the new-team wizard, no number of presses issues an RPC (every effect is the wizard's finish, never an add-members or bulk-add call) or changes waiting or error |
| AddMembersConfirm.SuccessWithDefaultChannels | shared/teams/add-members-wizard/confirm.tsx:42-70 | with a default channel list, success runs add members, then bulk-add of the non-general channels with every assertion, then finish |
| AddMembersConfirm.SuccessWithoutDefaultChannels | shared/teams/add-members-wizard/confirm.tsx:42-79 | without a default channel list, the wizard finishes as soon as the members are added |
| AddMembersConfirm.AddMembersFailureShowsError | shared/teams/add-members-wizard/confirm.tsx:81-85 | an add-members failure clears waiting, shows the message and does not finish |
| AddMembersConfirm.BulkAddFailureShowsError | shared/teams/add-members-wizard/confirm.tsx:71-75 | a bulk-add failure clears waiting, shows the message and does not finish |
| AddMembersConfirm.DefaultChannelKeysInOrder | shared/teams/add-members-wizard/confirm.tsx:62-64 | the requested keys keep the default channels' order |
| AddMembersConfirm.RunErrorIsLastFailure | shared/teams/add-members-wizard/confirm.tsx:37-84 | the error shown is the initial one until a failure, and after a failure it is that failure's message, with waiting cleared |
| AddMembersConfirm.ConfirmSubmit.constructor | shared/teams/add-members-wizard/confirm.tsx:36-37 | the page starts not waiting and with no error |
| AddMembersConfirm.ConfirmSubmit.OnComplete | shared/teams/add-members-wizard/confirm.tsx:40-55 | the new state and effect are those of `Step` on the button press |
| AddMembersConfirm.ConfirmSubmit.OnAddMembersSuccess | shared/teams/add-members-wizard/confirm.tsx:56-80 | the new state and effect are those of `Step` on add-members success |
| AddMembersConfirm.ConfirmSubmit.OnAddMembersError | shared/teams/add-members-wizard/confirm.tsx:81-85 | the new state and effect are those of `Step` on add-members failure |
| AddMembersConfirm.ConfirmSubmit.OnBulkAddSuccess | shared/teams/add-members-wizard/confirm.tsx:68-70 | the new state and effect are those of `Step` on bulk-add success |
| AddMembersConfirm.ConfirmSubmit.OnBulkAddError | shared/teams/add-members-wizard/confirm.tsx:71-75 | the new state and effect are those of `Step` on bulk-add failure |
| AddMembersConfirm.MemberRowsSpec | shared/teams/add-members-wizard/confirm.tsx:245-271 | off phones, or when expanded, every member is listed in order; collapsed on a phone, the first four are; "+N more" counts the members not listed; only the sole member has no remove icon (the icon's test is at line 339) |
| AddMembersConfirm.FindIndex | shared/teams/add-members-wizard/confirm.tsx:289 | `find` stops at the first member with that assertion, or finds none |
| AddMembersConfirm.DisplayedRoleSpec | shared/teams/add-members-wizard/confirm.tsx:288-335 | a member shows its own role when set, else the wizard's role; the member dropdown is shown exactly when no wizard role is set, and is then labelled with the member's own role |
| AddMembersConfirm.Capitalize | shared/teams/add-members-wizard/confirm.tsx:234 | same length; each character is the input's character up to ASCII case; the first letter is not lower case; the other letters are not upper case |
| AddMembersConfirm.CapitalizeIdempotent | shared/teams/add-members-wizard/confirm.tsx:234 | capitalizing twice is capitalizing once |
| AddMembersConfirm.WizardRoleLabelSpec | shared/teams/add-members-wizard/confirm.tsx:234 | "Set individually" exactly when no role is set; otherwise the capitalized role followed by "s" (e.g. "Writers") |
| AddMembersConfirm.PiecesFromTail | shared/teams/add-members-wizard/confirm.tsx:376-381 | for more than two names, the pieces from a position on are a comma list, then " and ", then the last name |
| AddMembersConfirm.ChannelSentenceIsReference | shared/teams/add-members-wizard/confirm.tsx:376-381 | the pieces read as one name alone, two joined by " and ", or a comma list of all but the last followed by " and " and the last |
| AddMembersConfirm.SentenceExamples | shared/teams/add-members-wizard/confirm.tsx:376-381 | "#random", "#a and #b", and "#a, #b,  and #c" with two spaces |
| ChannelsWidget.Candidates | shared/teams/common/channels-widget.tsx:48-57 | every entry is made from an eligible channel of the team, and every eligible channel has its entry |
| ChannelsWidget.CandidatesOfAll | shared/teams/common/channels-widget.tsx:54-57 | one entry per channel, in order |
| ChannelsWidget.CandidatesKeepOrder | shared/teams/common/channels-widget.tsx:48-57 | the entries keep the channels' order |
| ChannelsWidget.CandidatesSpec | shared/teams/common/channels-widget.tsx:48-57 | no entry is already selected; none is `general` while general is disabled; each label is `#` plus the name, and each value is that channel's name and key; a channel is offered exactly when it is unselected and not a disabled general |
| ChannelsWidget.NoCandidateHasAPill | shared/teams/common/channels-widget.tsx:20-52 | the widget never offers a channel that already has a pill |
| ChannelsWidget.SetFilter | shared/teams/common/channels-widget.tsx:75 | the field holds the typed text |
| ChannelsWidget.SelectCandidate | shared/teams/common/channels-widget.tsx:59-62 | choosing adds exactly the one chosen channel and empties the field |
| ChannelsWidget.SelectingACandidateAddsOneNewChannel | shared/teams/common/channels-widget.tsx:48-62 | choosing an offered entry adds one team channel not selected before, whatever was typed |
| ChannelsWidget.OpenPopup | shared/teams/common/channels-widget.tsx:93 | tapping the input shows the popup |
| ChannelsWidget.CancelPopup | shared/teams/common/channels-widget.tsx:109 | cancel hides the popup and adds nothing |
| ChannelsWidget.CompletePopup | shared/teams/common/channels-widget.tsx:88-91 | completing hides the popup and passes the chosen channels on unchanged |
| ChannelsWidget.PopupClosesToInitial | shared/teams/common/channels-widget.tsx:87-109 | closing the popup either way returns the input to its initial state |
| ChannelsWidget.Pills | shared/teams/common/channels-widget.tsx:27-33 | one pill per channel, in order, showing its name; the `general` pill has no remove action; every other pill removes its own channel |
| ChannelsWidget.RemovalNeverTargetsGeneral | shared/teams/common/channels-widget.tsx:31 | a pill's removal never names `general`, and only names a channel in the list |

## Left out

- Rendering, styles, layout animation, keys of list items, and the modal chrome are left out. Only the values the screens compute and the callbacks they pass on are modelled.
- The RPCs themselves (`useRPC`, the team and chat services), navigation and Redux dispatch are left out because they talk to the outside. A dispatch or a call is an `Effect`/`FinishAction` value, and an RPC's outcome is an `Event`.
- `keyToConversationID` is left out because its source is not part of this model. Requests carry conversation keys.
- `RPCGen.TeamRole[member.role]` maps a role name to an enum value whose table is not part of this model. `AddMembersConfirm.Users` passes the role name through.
- `localeCompare` and `toLowerCase` are parameters, because their locale rules are not modelled. Sortedness is proved for any collation that is a total preorder.
- `AddMembersConfirm.Capitalize`: cases only ASCII letters. lodash's `capitalize` uses the full Unicode case mapping, which is not modelled.
- Strings are sequences of Dafny characters, which are Unicode scalar values, not UTF-16 code units. `trim` and `Capitalize` work per character.
- `pluralize`, used in the role picker's confirm label and the "N channels" text, is not part of this model.
- `memoize` is a cache with no effect on results, so it is left out.
- `Sorting.SortByName`: `list.sort` sorts in place. The model sorts a value, so the in-place update of the list is not captured. Nothing else holds that list.
- The hooks `useAllChannelMetas` and `useDefaultChannels`, the autocompleter `useAutocompleter`, `ChannelPopup`, and the reducers behind the wizard actions are not part of this model. Their inputs are parameters, and their outputs are the values passed to `onAdd`/`onRemoveChannel`.
- The search filter's matching of entries inside the autocompleter is left out. `ChannelsWidget` models only the list handed to it, and the filter text.
- `isBigTeam`, which decides whether the default-channels block appears, reads the store through code that is not part of this model.
- The add-to-channels screen shows the `#general` row as checked (add-to-channels.tsx:127-130), but its key never enters `selected`: `onSelect` ignores it (line 67) and select all takes only the non-general channels (line 77). `onFinish` sends exactly `[...selected]` (line 93), so `#general` is never submitted. `AddToChannels.GeneralNeverSubmitted` states this.
- `AddToChannels.AllSelectedIffEveryRowSelected`: holds only while every selected key is a listed channel's key, which `AddToChannels.SelectionStaysListed` shows the screen's own updates keep. When the channel list is reloaded after keys were selected, `selected` is not cleared, and the size test at add-to-channels.tsx:110 then compares against a different list. A stale key counts towards the size, so the header can offer "Clear" while a listed row is unchecked. The model does not state what the header shows in that case.
- Failure logging is left out because it is output only: `console.error` at add-to-channels.tsx:99, and `logger.error` at confirm.tsx:73 and 83.
- `Sorting.SortByName`: ECMAScript requires `sort` to be stable, and the model does not prove stability. Only sortedness and permutation are proved.

## Findings

| source | as written | input that shows it | evidently intended | confidence | as-written member | corrected member |
|---|---|---|---|---|---|---|
| shared/teams/team/member/add-to-channels.tsx:44-45 | `getRouteProps(props, 'usernames', undefined) ?? mode === 'self' ? [myUsername] : []` parses as `(usernames ?? mode === 'self') ? [myUsername] : []`, so any supplied route list becomes the current user | route usernames `["alice"]`, mode `others`, current user `me`: the screen adds `me` and is titled "Add me to..." | the route's usernames when given, else `[myUsername]` in self mode and `[]` in others mode | high, not executed | AddToChannels.ResolveUsernames, AddToChannels.RouteUsernamesIgnored | AddToChannels.ResolveUsernamesIntended |
