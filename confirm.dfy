/** The last page of the add-members wizard: the title noun, the email-only
    test, the submit that adds the members and then puts them in the
    default channels, the collapsed member list on phones, the role labels,
    and the sentence that lists the default channels. */
module AddMembersConfirm {
  import opened Common

  /** A member being invited; an unset role falls back to the wizard's role. */
  datatype AddingMember = AddingMember(assertion: string, role: Option<string>)

  /** The wizard state the page reads. `defaultChannels` is None while the
      wizard holds no default channel list. */
  datatype WizardState = WizardState(teamID: string, addingMembers: seq<AddingMember>, defaultChannels: Option<seq<ChannelNameID>>)

  const EmailSuffix: string := "@email"

  /** The noun of the title and of the button. */
  function Noun(count: nat): (r: string)
    ensures r == "person" <==> count == 1
    ensures r == "people" <==> count != 1
  {
    if count == 1 then "person" else "people"
  }

  /** findIndex for the first member whose assertion is not an email. */
  function FirstNonEmail(members: seq<AddingMember>): (r: int)
    ensures -1 <= r < |members|
    ensures r == -1 <==> forall i :: 0 <= i < |members| ==> EndsWith(members[i].assertion, EmailSuffix)
    ensures r >= 0 ==> !EndsWith(members[r].assertion, EmailSuffix)
                       && forall i :: 0 <= i < r ==> EndsWith(members[i].assertion, EmailSuffix)
  {
    if members == [] then -1
    else if !EndsWith(members[0].assertion, EmailSuffix) then 0
    else
      var k := FirstNonEmail(members[1..]);
      if k == -1 then -1 else k + 1
  }

  /** The custom email note is offered when there are members and every one
      of them is an email assertion. */
  function OnlyEmails(members: seq<AddingMember>): (r: bool)
    ensures r <==> |members| > 0 && forall i :: 0 <= i < |members| ==> EndsWith(members[i].assertion, EmailSuffix)
  {
    |members| > 0 && FirstNonEmail(members) == -1
  }

  // ---------------------------------------------------------------------
  // Submitting

  datatype UserRole = UserRole(assertion: string, role: Option<string>)

  datatype AddMembersRequest = AddMembersRequest(
    emailInviteMessage: Option<string>,
    sendChatNotification: bool,
    teamID: string,
    users: seq<UserRole>)

  /** What a step asks of the outside: a wizard action or an RPC call. */
  datatype Effect =
    | FinishNewTeamWizard
    | CallAddMembers(addRequest: AddMembersRequest)
    | CallBulkAdd(bulkRequest: BulkAddRequest)
    | FinishAddMembersWizard
    | NoEffect

  /** The button press and the outcomes of the two RPC calls. */
  datatype Event = Complete | AddMembersOk | AddMembersErr(message: string) | BulkAddOk | BulkAddErr(message: string)

  datatype SubmitState = SubmitState(waiting: bool, error: string)

  /** What the page's callbacks close over: the wizard state, the note typed
      so far (None until the note box is opened), and the team id that marks
      a team still being created. */
  datatype ConfirmScreen = ConfirmScreen(wizard: WizardState, emailMessage: Option<string>, newTeamWizardTeamID: string)

  predicate FromNewTeamWizard(sc: ConfirmScreen) {
    sc.wizard.teamID == sc.newTeamWizardTeamID
  }

  /** `emailMessage || undefined`: an empty note is not sent. */
  function EmailInviteMessage(emailMessage: Option<string>): (r: Option<string>)
    ensures r.Some? <==> emailMessage.Some? && emailMessage.value != ""
    ensures r.Some? ==> r == emailMessage
  {
    match emailMessage
    case Some(m) => if m == "" then None else Some(m)
    case None => None
  }

  function Users(members: seq<AddingMember>): (r: seq<UserRole>)
    ensures |r| == |members|
    ensures forall i :: 0 <= i < |members| ==> r[i] == UserRole(members[i].assertion, members[i].role)
  {
    seq(|members|, i requires 0 <= i < |members| => UserRole(members[i].assertion, members[i].role))
  }

  function Assertions(members: seq<AddingMember>): (r: seq<string>)
    ensures |r| == |members|
    ensures forall i :: 0 <= i < |members| ==> r[i] == members[i].assertion
  {
    seq(|members|, i requires 0 <= i < |members| => members[i].assertion)
  }

  function AddMembersRequestFor(sc: ConfirmScreen): AddMembersRequest {
    AddMembersRequest(EmailInviteMessage(sc.emailMessage), true, sc.wizard.teamID, Users(sc.wizard.addingMembers))
  }

  /** The keys of the default channels other than those named `general`, in order. */
  function DefaultChannelKeys(chs: seq<ChannelNameID>): (r: seq<string>)
    ensures |r| <= |chs|
    ensures forall i :: 0 <= i < |chs| && chs[i].channelname != GeneralName ==> chs[i].conversationIDKey in r
    ensures forall k :: k in r ==> exists i :: 0 <= i < |chs| && chs[i].channelname != GeneralName && chs[i].conversationIDKey == k
    ensures (forall i :: 0 <= i < |chs| ==> chs[i].channelname != GeneralName) ==> |r| == |chs|
  {
    if chs == [] then []
    else
      var rest := DefaultChannelKeys(chs[1..]);
      assert forall i :: 1 <= i < |chs| ==> chs[i] == chs[1..][i - 1];
      (if chs[0].channelname == GeneralName then [] else [chs[0].conversationIDKey]) + rest
  }

  /** The requested keys keep the default channels' order: they are the
      channels' keys with the general ones dropped. */
  lemma {:induction false} DefaultChannelKeysInOrder(chs: seq<ChannelNameID>)
    ensures IsSubsequence(DefaultChannelKeys(chs), seq(|chs|, i requires 0 <= i < |chs| => chs[i].conversationIDKey))
  {
    if chs != [] {
      DefaultChannelKeysInOrder(chs[1..]);
      var all := seq(|chs|, i requires 0 <= i < |chs| => chs[i].conversationIDKey);
      assert all[1..] == seq(|chs[1..]|, i requires 0 <= i < |chs[1..]| => chs[1..][i].conversationIDKey);
      var r := DefaultChannelKeys(chs);
      if chs[0].channelname == GeneralName {
        assert r == DefaultChannelKeys(chs[1..]);
        if r != [] {
          assert IsSubsequence(r, all[1..]);
        }
      } else {
        assert r[0] == all[0] && r[1..] == DefaultChannelKeys(chs[1..]);
      }
    }
  }

  /** Once the members are in: add them to the default channels if the
      wizard holds a default channel list (even an empty one), else finish. */
  function AfterMembersAdded(w: WizardState): Effect {
    match w.defaultChannels
    case Some(chs) => CallBulkAdd(BulkAddRequest(DefaultChannelKeys(chs), Assertions(w.addingMembers)))
    case None => FinishAddMembersWizard
  }

  /** One callback of the page. */
  function Step(s: SubmitState, sc: ConfirmScreen, e: Event): (SubmitState, Effect) {
    match e
    case Complete =>
      if FromNewTeamWizard(sc) then (s, FinishNewTeamWizard)
      else (s.(waiting := true), CallAddMembers(AddMembersRequestFor(sc)))
    case AddMembersOk => (s, AfterMembersAdded(sc.wizard))
    case AddMembersErr(m) => (SubmitState(false, m), NoEffect)
    case BulkAddOk => (s, FinishAddMembersWizard)
    case BulkAddErr(m) => (SubmitState(false, m), NoEffect)
  }

  /** The effect list a step contributes. */
  function Emitted(e: Effect): seq<Effect> {
    if e == NoEffect then [] else [e]
  }

  /** The callbacks run in order; the effects they ask for, in order. */
  function Run(s: SubmitState, sc: ConfirmScreen, events: seq<Event>): (SubmitState, seq<Effect>)
    decreases |events|
  {
    if events == [] then (s, [])
    else
      var first := Step(s, sc, events[0]);
      var rest := Run(first.0, sc, events[1..]);
      (rest.0, Emitted(first.1) + rest.1)
  }

  lemma RunCons(s: SubmitState, sc: ConfirmScreen, e: Event, rest: seq<Event>)
    ensures Run(s, sc, [e] + rest)
            == (Run(Step(s, sc, e).0, sc, rest).0, Emitted(Step(s, sc, e).1) + Run(Step(s, sc, e).0, sc, rest).1)
  {
    assert ([e] + rest)[1..] == rest;
  }

  predicate IsRpc(e: Effect) {
    e.CallAddMembers? || e.CallBulkAdd?
  }

  predicate IsFinish(e: Effect) {
    e.FinishNewTeamWizard? || e.FinishAddMembersWizard?
  }

  /** From a team still being created, completing only finishes that wizard:
      no RPC and no change to waiting or error. */
  lemma NewTeamWizardMakesNoCall(s: SubmitState, sc: ConfirmScreen)
    requires FromNewTeamWizard(sc)
    ensures Run(s, sc, [Complete]).0 == s
    ensures Run(s, sc, [Complete]).1 == [FinishNewTeamWizard]
  {
    RunCons(s, sc, Complete, []);
    assert [Complete] + [] == [Complete];
  }

  /** Both calls succeed with a default channel list: add members, then
      bulk-add them to the non-general default channels, then finish. */
  lemma SuccessWithDefaultChannels(s: SubmitState, sc: ConfirmScreen)
    requires !FromNewTeamWizard(sc) && sc.wizard.defaultChannels.Some?
    ensures Run(s, sc, [Complete, AddMembersOk, BulkAddOk]).1
            == [CallAddMembers(AddMembersRequestFor(sc)),
                CallBulkAdd(BulkAddRequest(DefaultChannelKeys(sc.wizard.defaultChannels.value), Assertions(sc.wizard.addingMembers))),
                FinishAddMembersWizard]
    ensures Run(s, sc, [Complete, AddMembersOk, BulkAddOk]).0 == s.(waiting := true)
  {
    var s1 := s.(waiting := true);
    RunCons(s, sc, Complete, [AddMembersOk, BulkAddOk]);
    RunCons(s1, sc, AddMembersOk, [BulkAddOk]);
    RunCons(s1, sc, BulkAddOk, []);
    assert [Complete] + [AddMembersOk, BulkAddOk] == [Complete, AddMembersOk, BulkAddOk];
    assert [AddMembersOk] + [BulkAddOk] == [AddMembersOk, BulkAddOk];
    assert [BulkAddOk] + [] == [BulkAddOk];
  }

  /** Without a default channel list the wizard finishes right after the
      members are added. */
  lemma SuccessWithoutDefaultChannels(s: SubmitState, sc: ConfirmScreen)
    requires !FromNewTeamWizard(sc) && sc.wizard.defaultChannels.None?
    ensures Run(s, sc, [Complete, AddMembersOk]).0 == s.(waiting := true)
    ensures Run(s, sc, [Complete, AddMembersOk]).1 == [CallAddMembers(AddMembersRequestFor(sc)), FinishAddMembersWizard]
  {
    var s1 := s.(waiting := true);
    RunCons(s, sc, Complete, [AddMembersOk]);
    RunCons(s1, sc, AddMembersOk, []);
    assert [Complete] + [AddMembersOk] == [Complete, AddMembersOk];
    assert [AddMembersOk] + [] == [AddMembersOk];
  }

  /** The add-members call failing stops waiting, shows the message and does
      not finish the wizard. */
  lemma AddMembersFailureShowsError(s: SubmitState, sc: ConfirmScreen, m: string)
    requires !FromNewTeamWizard(sc)
    ensures Run(s, sc, [Complete, AddMembersErr(m)]).0 == SubmitState(false, m)
    ensures Run(s, sc, [Complete, AddMembersErr(m)]).1 == [CallAddMembers(AddMembersRequestFor(sc))]
  {
    var s1 := s.(waiting := true);
    RunCons(s, sc, Complete, [AddMembersErr(m)]);
    RunCons(s1, sc, AddMembersErr(m), []);
    assert [Complete] + [AddMembersErr(m)] == [Complete, AddMembersErr(m)];
    assert [AddMembersErr(m)] + [] == [AddMembersErr(m)];
  }

  /** The bulk-add call failing likewise stops waiting, shows the message,
      and the wizard is not finished. */
  lemma BulkAddFailureShowsError(s: SubmitState, sc: ConfirmScreen, m: string)
    requires !FromNewTeamWizard(sc) && sc.wizard.defaultChannels.Some?
    ensures Run(s, sc, [Complete, AddMembersOk, BulkAddErr(m)]).0 == SubmitState(false, m)
    ensures Run(s, sc, [Complete, AddMembersOk, BulkAddErr(m)]).1
            == [CallAddMembers(AddMembersRequestFor(sc)), AfterMembersAdded(sc.wizard)]
    ensures forall e :: e in Run(s, sc, [Complete, AddMembersOk, BulkAddErr(m)]).1 ==> !IsFinish(e)
  {
    var s1 := s.(waiting := true);
    RunCons(s, sc, Complete, [AddMembersOk, BulkAddErr(m)]);
    RunCons(s1, sc, AddMembersOk, [BulkAddErr(m)]);
    RunCons(s1, sc, BulkAddErr(m), []);
    assert [Complete] + [AddMembersOk, BulkAddErr(m)] == [Complete, AddMembersOk, BulkAddErr(m)];
    assert [AddMembersOk] + [BulkAddErr(m)] == [AddMembersOk, BulkAddErr(m)];
    assert [BulkAddErr(m)] + [] == [BulkAddErr(m)];
  }

  /** In any run of callbacks, the state's error is either the initial one
      or the message of the last failure, and waiting is false right after
      a failure. */
  lemma {:induction false} RunErrorIsLastFailure(s: SubmitState, sc: ConfirmScreen, events: seq<Event>)
    ensures (forall i :: 0 <= i < |events| ==> !events[i].AddMembersErr? && !events[i].BulkAddErr?)
            ==> Run(s, sc, events).0.error == s.error
    ensures |events| > 0 && (events[|events| - 1].AddMembersErr? || events[|events| - 1].BulkAddErr?)
            ==> Run(s, sc, events).0 == SubmitState(false, events[|events| - 1].message)
    decreases |events|
  {
    if events != [] {
      RunErrorIsLastFailure(Step(s, sc, events[0]).0, sc, events[1..]);
    }
  }

  /** A run only asks for an RPC when the screen is not the new-team wizard. */
  lemma {:induction false} NewTeamWizardNeverCalls(s: SubmitState, sc: ConfirmScreen, events: seq<Event>)
    requires FromNewTeamWizard(sc)
    requires forall i :: 0 <= i < |events| ==> events[i] == Complete
    ensures forall e :: e in Run(s, sc, events).1 ==> e == FinishNewTeamWizard && !IsRpc(e)
    ensures Run(s, sc, events).0 == s
    decreases |events|
  {
    if events != [] {
      NewTeamWizardNeverCalls(s, sc, events[1..]);
    }
  }

  /** The page's submit state; each method is one callback. */
  class ConfirmSubmit {
    var waiting: bool
    var error: string

    constructor ()
      ensures !waiting && error == ""
    {
      waiting := false;
      error := "";
    }

    /** onComplete, the button press. */
    method OnComplete(sc: ConfirmScreen) returns (effect: Effect)
      modifies this
      ensures (SubmitState(waiting, error), effect) == Step(old(SubmitState(waiting, error)), sc, Complete)
    {
      if FromNewTeamWizard(sc) {
        effect := FinishNewTeamWizard;
        return;
      }
      waiting := true;
      effect := CallAddMembers(AddMembersRequestFor(sc));
    }

    method OnAddMembersSuccess(sc: ConfirmScreen) returns (effect: Effect)
      modifies this
      ensures (SubmitState(waiting, error), effect) == Step(old(SubmitState(waiting, error)), sc, AddMembersOk)
    {
      match sc.wizard.defaultChannels
      case Some(chs) =>
        effect := CallBulkAdd(BulkAddRequest(DefaultChannelKeys(chs), Assertions(sc.wizard.addingMembers)));
      case None =>
        effect := FinishAddMembersWizard;
    }

    method OnAddMembersError(sc: ConfirmScreen, message: string) returns (effect: Effect)
      modifies this
      ensures (SubmitState(waiting, error), effect) == Step(old(SubmitState(waiting, error)), sc, AddMembersErr(message))
    {
      waiting := false;
      error := message;
      effect := NoEffect;
    }

    method OnBulkAddSuccess(sc: ConfirmScreen) returns (effect: Effect)
      modifies this
      ensures (SubmitState(waiting, error), effect) == Step(old(SubmitState(waiting, error)), sc, BulkAddOk)
    {
      effect := FinishAddMembersWizard;
    }

    method OnBulkAddError(sc: ConfirmScreen, message: string) returns (effect: Effect)
      modifies this
      ensures (SubmitState(waiting, error), effect) == Step(old(SubmitState(waiting, error)), sc, BulkAddErr(message))
    {
      waiting := false;
      error := message;
      effect := NoEffect;
    }
  }

  // ---------------------------------------------------------------------
  // The member list and its divider on phones

  const CollapsedCount: nat := 4

  function ShowDivider(isMobile: bool, count: nat): bool {
    isMobile && count > CollapsedCount
  }

  /** `slice(0, 4)` on phones, the whole list elsewhere. */
  function AboveDivider(isMobile: bool, members: seq<AddingMember>): seq<AddingMember> {
    if isMobile then members[..if |members| < CollapsedCount then |members| else CollapsedCount] else members
  }

  /** `slice(4)` on phones while expanded, nothing otherwise. */
  function BelowDivider(isMobile: bool, expanded: bool, members: seq<AddingMember>): seq<AddingMember> {
    if isMobile && expanded then (if |members| > CollapsedCount then members[CollapsedCount..] else []) else []
  }

  datatype DividerText = ShowLess | More(hidden: int)

  function DividerLabel(expanded: bool, count: nat): DividerText {
    if expanded then ShowLess else More(count - CollapsedCount)
  }

  datatype MemberRow = MemberRow(member: AddingMember, showRemove: bool)

  /** The remove icon shows unless the row was told it is the last member. */
  function ShowRemoveIcon(lastMember: Option<bool>): bool {
    lastMember != Some(true)
  }

  /** Rows above the divider learn whether the list has one member; rows
      below it are not told. */
  function MemberRows(isMobile: bool, expanded: bool, members: seq<AddingMember>): seq<MemberRow> {
    var above := AboveDivider(isMobile, members);
    var below := if expanded then BelowDivider(isMobile, expanded, members) else [];
    seq(|above|, i requires 0 <= i < |above| => MemberRow(above[i], ShowRemoveIcon(Some(|members| == 1))))
    + seq(|below|, i requires 0 <= i < |below| => MemberRow(below[i], ShowRemoveIcon(None)))
  }

  function RowMembers(rows: seq<MemberRow>): seq<AddingMember> {
    seq(|rows|, i requires 0 <= i < |rows| => rows[i].member)
  }

  /** Off phones, and on phones when expanded, every member is listed in
      order; collapsed on a phone, the first four are. When the divider
      offers "+N more", N is the number of members not listed. Only the
      sole member of a one-member list has no remove icon. */
  lemma MemberRowsSpec(isMobile: bool, expanded: bool, members: seq<AddingMember>)
    ensures !isMobile || expanded ==> RowMembers(MemberRows(isMobile, expanded, members)) == members
    ensures isMobile && !expanded ==>
              RowMembers(MemberRows(isMobile, expanded, members))
                == members[..if |members| < CollapsedCount then |members| else CollapsedCount]
    ensures ShowDivider(isMobile, |members|) && !expanded ==>
              DividerLabel(expanded, |members|) == More(|members| - |MemberRows(isMobile, expanded, members)|)
    ensures ShowDivider(isMobile, |members|) ==> DividerLabel(expanded, |members|).More? || expanded
    ensures forall i :: 0 <= i < |MemberRows(isMobile, expanded, members)| ==>
              (!MemberRows(isMobile, expanded, members)[i].showRemove <==> |members| == 1)
  {
    var rows := MemberRows(isMobile, expanded, members);
    var above := AboveDivider(isMobile, members);
    var below := if expanded then BelowDivider(isMobile, expanded, members) else [];
    assert RowMembers(rows) == above + below;
    if isMobile && expanded && |members| > CollapsedCount {
      assert above + below == members;
    }
    forall i | 0 <= i < |rows| ensures !rows[i].showRemove <==> |members| == 1 {
      if i < |above| {
        assert rows[i].showRemove == ShowRemoveIcon(Some(|members| == 1));
      } else {
        assert rows[i].showRemove == ShowRemoveIcon(None);
        assert |below| > 0;
      }
    }
  }

  // ---------------------------------------------------------------------
  // Roles

  /** The index `find` stops at: the first member with this assertion, or -1. */
  function FindIndex(members: seq<AddingMember>, assertion: string): (r: int)
    ensures -1 <= r < |members|
    ensures r == -1 <==> forall i :: 0 <= i < |members| ==> members[i].assertion != assertion
    ensures r >= 0 ==> members[r].assertion == assertion
                       && forall j :: 0 <= j < r ==> members[j].assertion != assertion
  {
    if members == [] then -1
    else if members[0].assertion == assertion then 0
    else
      var k := FindIndex(members[1..], assertion);
      if k == -1 then -1 else k + 1
  }

  /** `find` by assertion. */
  function FindMember(members: seq<AddingMember>, assertion: string): Option<AddingMember> {
    var k := FindIndex(members, assertion);
    if k == -1 then None else Some(members[k])
  }

  /** `find(...)?.role ?? role`. */
  function DisplayedRole(members: seq<AddingMember>, assertion: string, wizardRole: Option<string>): Option<string> {
    match FindMember(members, assertion)
    case Some(m) => if m.role.Some? then m.role else wizardRole
    case None => wizardRole
  }

  /** A listed member shows its own role when it has one, else the wizard's.
      The member's dropdown is shown only while no wizard role is set, and
      then it is labelled with the member's own role, or left empty. */
  lemma DisplayedRoleSpec(members: seq<AddingMember>, i: nat, wizardRole: Option<string>)
    requires i < |members|
    requires forall j :: 0 <= j < i ==> members[j].assertion != members[i].assertion
    ensures members[i].role.Some? ==> DisplayedRole(members, members[i].assertion, wizardRole) == members[i].role
    ensures members[i].role.None? ==> DisplayedRole(members, members[i].assertion, wizardRole) == wizardRole
    ensures ShowRoleDropdown(wizardRole) <==> wizardRole.None?
    ensures ShowRoleDropdown(wizardRole) ==>
              MemberRoleLabel(DisplayedRole(members, members[i].assertion, wizardRole))
                == (if members[i].role.Some? then Capitalize(members[i].role.value) else "")
  {
    assert FindIndex(members, members[i].assertion) == i;
  }

  /** The per-member role dropdown shows only while no wizard role is set. */
  function ShowRoleDropdown(wizardRole: Option<string>): bool {
    wizardRole.None?
  }

  function UpperChar(c: char): char {
    if 'a' <= c <= 'z' then (c as int - 32) as char else c
  }

  function LowerChar(c: char): char {
    if 'A' <= c <= 'Z' then (c as int + 32) as char else c
  }

  /** Upper- or lower-casing a character keeps it the same letter. */
  lemma CaseFolds(c: char)
    ensures LowerChar(UpperChar(c)) == LowerChar(c)
    ensures LowerChar(LowerChar(c)) == LowerChar(c)
    ensures !('a' <= UpperChar(c) <= 'z') && !('A' <= LowerChar(c) <= 'Z')
  {
  }

  /** lodash `capitalize`: first character upper case, the rest lower case. */
  function Capitalize(s: string): (r: string)
    ensures |r| == |s|
    ensures r != [] ==> !('a' <= r[0] <= 'z')
    ensures forall i :: 1 <= i < |r| ==> !('A' <= r[i] <= 'Z')
    ensures forall i :: 0 <= i < |s| ==> LowerChar(r[i]) == LowerChar(s[i])
  {
    if s == [] then []
    else
      var r := [UpperChar(s[0])] + seq(|s| - 1, i requires 0 <= i < |s| - 1 => LowerChar(s[i + 1]));
      assert forall i :: 1 <= i < |r| ==> r[i] == LowerChar(s[i]);
      CaseFolds(s[0]);
      assert forall i :: 1 <= i < |r| ==> LowerChar(r[i]) == LowerChar(s[i]) by {
        forall i | 1 <= i < |r| ensures LowerChar(r[i]) == LowerChar(s[i]) {
          CaseFolds(s[i]);
        }
      }
      r
  }

  lemma CapitalizeIdempotent(s: string)
    ensures Capitalize(Capitalize(s)) == Capitalize(s)
  {
    var c := Capitalize(s);
    if s != [] {
      assert UpperChar(c[0]) == c[0];
      forall i | 1 <= i < |c| ensures LowerChar(c[i]) == c[i] {
      }
    }
  }

  /** The label of the wizard's role dropdown. */
  function WizardRoleLabel(storeRole: Option<string>): string {
    if storeRole.Some? && storeRole.value != "" then Capitalize(storeRole.value) + "s" else "Set individually"
  }

  /** The label says "Set individually" exactly when no role is set;
      otherwise it is the capitalised role with an `s`. */
  lemma WizardRoleLabelSpec(storeRole: Option<string>)
    ensures WizardRoleLabel(storeRole) == "Set individually" <==> storeRole.None? || storeRole.value == ""
    ensures storeRole.Some? && storeRole.value != "" ==>
              WizardRoleLabel(storeRole)[..|storeRole.value|] == Capitalize(storeRole.value)
              && WizardRoleLabel(storeRole)[|storeRole.value|..] == "s"
    ensures WizardRoleLabel(Some("writer")) == "Writers"
  {
    if storeRole.Some? && storeRole.value != "" {
      var l := WizardRoleLabel(storeRole);
      assert l[|l| - 1] == 's';
      assert "Set individually"[|"Set individually"| - 1] == 'y';
    }
    assert Capitalize("writer") == "Writer";
  }

  /** The per-member dropdown label: `capitalize(undefined)` is empty. */
  function MemberRoleLabel(role: Option<string>): string {
    match role
    case Some(r) => Capitalize(r)
    case None => ""
  }

  // ---------------------------------------------------------------------
  // The sentence naming the default channels

  /** One channel's text: `#name`, then ", " when there are more than two
      names and this is not the last, then " and " after the next-to-last. */
  function Piece(names: seq<string>, i: nat): string
    requires i < |names|
  {
    "#" + names[i]
    + (if |names| > 2 && i < |names| - 1 then ", " else "")
    + (if i == |names| - 2 then " and " else "")
  }

  function PiecesFrom(names: seq<string>, i: nat): string
    requires i <= |names|
    decreases |names| - i
  {
    if i == |names| then "" else Piece(names, i) + PiecesFrom(names, i + 1)
  }

  function ChannelSentence(names: seq<string>): string {
    PiecesFrom(names, 0)
  }

  /** "#a, #b, " for a list of names. */
  function CommaList(names: seq<string>): string {
    if names == [] then "" else "#" + names[0] + ", " + CommaList(names[1..])
  }

  /** Reference reading: one name alone; two joined by " and "; more than two
      as a comma list of all but the last, then " and " and the last (so the
      last comma is followed by two spaces, as the pieces put it). */
  function SentenceReference(names: seq<string>): string {
    if |names| == 0 then ""
    else if |names| == 1 then "#" + names[0]
    else if |names| == 2 then "#" + names[0] + " and " + "#" + names[1]
    else CommaList(names[..|names| - 1]) + " and " + "#" + names[|names| - 1]
  }

  lemma {:induction false} PiecesFromTail(names: seq<string>, i: nat)
    requires |names| > 2 && i <= |names| - 2
    ensures PiecesFrom(names, i) == CommaList(names[i..|names| - 1]) + " and " + "#" + names[|names| - 1]
    decreases |names| - i
  {
    var n := |names|;
    var last := "#" + names[n - 1];
    if i == n - 2 {
      assert Piece(names, n - 1) == last;
      assert PiecesFrom(names, n - 1) == last + "";
      assert names[i..n - 1] == [names[n - 2]];
      assert CommaList([names[n - 2]]) == "#" + names[n - 2] + ", " + "";
    } else {
      PiecesFromTail(names, i + 1);
      assert names[i..n - 1][1..] == names[i + 1..n - 1];
      assert Piece(names, i) == "#" + names[i] + ", ";
    }
  }

  /** The pieces read as the reference sentence. */
  lemma ChannelSentenceIsReference(names: seq<string>)
    ensures ChannelSentence(names) == SentenceReference(names)
  {
    var n := |names|;
    if n == 1 {
      assert PiecesFrom(names, 1) == "";
    } else if n == 2 {
      assert PiecesFrom(names, 1) == Piece(names, 1) + "";
    } else if n > 2 {
      PiecesFromTail(names, 0);
      assert names[0..n - 1] == names[..n - 1];
    }
  }

  lemma SentenceExamples()
    ensures ChannelSentence(["random"]) == "#random"
    ensures ChannelSentence(["a", "b"]) == "#a and #b"
    ensures ChannelSentence(["a", "b", "c"]) == "#a, #b,  and #c"
  {
    ChannelSentenceIsReference(["random"]);
    ChannelSentenceIsReference(["a", "b"]);
    ChannelSentenceIsReference(["a", "b", "c"]);
    assert ["a", "b", "c"][..2] == ["a", "b"];
    assert ["a", "b"][1..] == ["b"];
  }
}
