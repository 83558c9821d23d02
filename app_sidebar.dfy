/** The conversation sidebar (src/components/app-sidebar.tsx): renaming a
    conversation in place, deleting one behind a confirmation dialog, and
    signing out. The list itself, the profile and the layout are not
    modelled; the mutations are recorded as requests and their callbacks
    are separate events. */
module AppSidebar {
  import opened Js

  const AccessTokenKey := "accessToken"
  const RefreshTokenKey := "refreshToken"
  const SignInPath := "/sign-in"

  /** An `updateConversation` call: the conversation and its new name. */
  datatype Update = Update(conversationId: string, name: string)

  /** The update a rename submit issues, if any: none without a (truthy)
      conversation being edited or with a blank draft; otherwise the draft
      trimmed. */
  function RenameRequest(editingId: Option<string>, draft: string): (r: Option<Update>)
    ensures r.Some? <==> Truthy(editingId) && !AllWhitespace(draft)
    ensures r.Some? ==> r.value.conversationId == editingId.value
    ensures r.Some? ==> r.value.name == Trim(draft) && r.value.name != []
    ensures r.Some? ==> !IsWhitespace(r.value.name[0]) && !IsWhitespace(r.value.name[|r.value.name| - 1])
  {
    TrimEmptyIff(draft);
    if !Truthy(editingId) || Trim(draft) == [] then None
    else Some(Update(editingId.value, Trim(draft)))
  }

  /** Submitting the name the server received again sends the same name:
      the trimmed name is a fixed point. */
  lemma RenameRequestStable(editingId: Option<string>, draft: string)
    requires RenameRequest(editingId, draft).Some?
    ensures RenameRequest(editingId, RenameRequest(editingId, draft).value.name) == RenameRequest(editingId, draft)
  {
    TrimIdempotent(draft);
    TrimEmptyIff(Trim(draft));
  }

  /** Surrounding whitespace never reaches the server. */
  lemma RenameIgnoresPadding(editingId: Option<string>, draft: string, before: string, after: string)
    requires AllWhitespace(before) && AllWhitespace(after)
    requires draft == [] || (!IsWhitespace(draft[0]) && !IsWhitespace(draft[|draft| - 1]))
    ensures RenameRequest(editingId, before + draft + after) == RenameRequest(editingId, draft)
  {
    PaddedTrim(before, draft, after);
    TrimEmptyIff(before + draft + after);
    TrimEmptyIff(draft);
  }

  lemma {:induction false} TrimStartPadded(before: string, s: string)
    requires AllWhitespace(before)
    requires s == [] || !IsWhitespace(s[0])
    ensures TrimStart(before + s) == s
  {
    if before != [] {
      assert (before + s)[1..] == before[1..] + s;
      TrimStartPadded(before[1..], s);
    } else {
      assert before + s == s;
    }
  }

  lemma {:induction false} TrimEndPadded(s: string, after: string)
    requires AllWhitespace(after)
    requires s == [] || !IsWhitespace(s[|s| - 1])
    ensures TrimEnd(s + after) == s
  {
    if after != [] {
      var init := after[..|after| - 1];
      assert (s + after)[..|s + after| - 1] == s + init;
      TrimEndPadded(s, init);
    } else {
      assert s + after == s;
    }
  }

  lemma PaddedTrim(before: string, s: string, after: string)
    requires AllWhitespace(before) && AllWhitespace(after)
    requires s == [] || (!IsWhitespace(s[0]) && !IsWhitespace(s[|s| - 1]))
    ensures Trim(before + s + after) == Trim(s)
  {
    if s == [] {
      assert before + s + after == before + after;
      assert AllWhitespace(before + after);
      TrimEmptyIff(before + after);
    } else {
      assert before + s + after == before + (s + after);
      TrimStartPadded(before, s + after);
      TrimEndPadded(s, after);
      assert TrimStart(s) == s;
      assert TrimEnd(s) == s;
    }
  }

  /** Every update carries a non-blank, trimmed name. */
  predicate NamesTrimmed(updates: seq<Update>) {
    forall i :: 0 <= i < |updates| ==> updates[i].name != [] && Trim(updates[i].name) == updates[i].name
  }

  lemma NamesTrimmedSnoc(updates: seq<Update>, u: Update)
    requires NamesTrimmed(updates) && u.name != [] && Trim(u.name) == u.name
    ensures NamesTrimmed(updates + [u])
  {
  }

  datatype Key = Enter | Escape | OtherKey

  datatype SidebarState = SidebarState(
    editingId: Option<string>, draftName: string, deletingId: Option<string>, dialogOpen: bool,
    updates: seq<Update>, deletes: seq<string>, revokes: seq<string>,
    storage: map<string, string>, location: Option<string>,
    updating: bool, deleting: bool, revoking: bool)

  /** The component's state: the conversation in edit mode and its draft
      name, the conversation awaiting delete confirmation and whether the
      dialog is open; `updates`, `deletes` and `revokes` are the mutation
      calls made, `storage` is local storage and `location` the last
      redirect; `updating`, `deleting` and `revoking` are the mutations'
      `isPending` flags, which disable the controls that would start them
      again. */
  class Sidebar {
    var editingId: Option<string>
    var draftName: string
    var deletingId: Option<string>
    var dialogOpen: bool
    var updates: seq<Update>
    var deletes: seq<string>
    var revokes: seq<string>
    var storage: map<string, string>
    var location: Option<string>
    var updating: bool
    var deleting: bool
    var revoking: bool

    ghost function State(): SidebarState
      reads this
    {
      SidebarState(editingId, draftName, deletingId, dialogOpen, updates, deletes, revokes, storage, location,
                   updating, deleting, revoking)
    }

    /** A conversation awaits confirmation only while the dialog is open,
        every rename sent a non-blank, trimmed name, and a mutation is
        pending only after it was called. */
    ghost predicate Valid()
      reads this
    {
      (deletingId.Some? ==> dialogOpen)
      && NamesTrimmed(updates)
      && (updating ==> updates != [])
      && (deleting ==> deletes != [])
      && (revoking ==> revokes != [])
    }

    constructor (saved: map<string, string>)
      ensures Valid()
      ensures State() == SidebarState(None, "", None, false, [], [], [], saved, None, false, false, false)
    {
      editingId := None;
      draftName := "";
      deletingId := None;
      dialogOpen := false;
      updates := [];
      deletes := [];
      revokes := [];
      storage := saved;
      location := None;
      updating := false;
      deleting := false;
      revoking := false;
    }

    /** `handleEditClick`: edit mode for the conversation, the draft seeded
        with its current name. */
    method EditClick(conversationId: string, currentName: string)
      requires Valid()
      modifies this
      ensures Valid()
      ensures State() == old(State()).(editingId := Some(conversationId), draftName := currentName)
    {
      editingId := Some(conversationId);
      draftName := currentName;
    }

    /** The rename input's `onChange`; the input is disabled while an
        update is pending. */
    method DraftChanged(text: string)
      requires Valid()
      modifies this
      ensures Valid()
      ensures old(updating) ==> State() == old(State())
      ensures !old(updating) ==> State() == old(State()).(draftName := text)
    {
      if !updating {
        draftName := text;
      }
    }

    /** `handleRenameSubmit` (the check button, or Enter): the button and
        the input are disabled while an update is pending; with nothing to
        send edit mode ends at once; otherwise the update is sent, becomes
        pending, and edit mode stays until it succeeds. */
    method RenameSubmit()
      requires Valid()
      modifies this
      ensures Valid()
      ensures old(updating) ==> State() == old(State())
      ensures !old(updating) ==> var request := RenameRequest(old(editingId), old(draftName));
        if request.None? then State() == old(State()).(editingId := None)
        else State() == old(State()).(updates := old(updates) + [request.value], updating := true)
    {
      if updating {
        return;
      }
      var request := RenameRequest(editingId, draftName);
      if request.None? {
        editingId := None;
      } else {
        var u := request.value;
        TrimIdempotent(draftName);
        assert u.name != [] && Trim(u.name) == u.name;
        NamesTrimmedSnoc(updates, u);
        updates := updates + [u];
        updating := true;
      }
    }

    /** The update's `onSuccess`: no longer pending, and edit mode ends. */
    method RenameSucceeded()
      requires Valid()
      modifies this
      ensures Valid()
      ensures State() == old(State()).(editingId := None, updating := false)
    {
      editingId := None;
      updating := false;
    }

    /** The update fails: it is no longer pending and edit mode stays, with
        the draft as it was, so the rename can be submitted again. */
    method RenameFailed()
      requires Valid()
      modifies this
      ensures Valid()
      ensures State() == old(State()).(updating := false)
    {
      updating := false;
    }

    /** The cancel button next to the rename input, disabled while an
        update is pending. */
    method CancelEdit()
      requires Valid()
      modifies this
      ensures Valid()
      ensures old(updating) ==> State() == old(State())
      ensures !old(updating) ==> State() == old(State()).(editingId := None)
    {
      if !updating {
        editingId := None;
      }
    }

    /** `handleKeyDown` on the rename input, which receives no keys while
        it is disabled by a pending update. */
    method KeyDown(key: Key)
      requires Valid()
      modifies this
      ensures Valid()
      ensures old(updating) || key == OtherKey ==> State() == old(State())
      ensures !old(updating) && key == Enter ==> var request := RenameRequest(old(editingId), old(draftName));
        if request.None? then State() == old(State()).(editingId := None)
        else State() == old(State()).(updates := old(updates) + [request.value], updating := true)
      ensures !old(updating) && key == Escape ==> State() == old(State()).(editingId := None)
    {
      if updating {
        return;
      }
      match key {
        case Enter => RenameSubmit();
        case Escape => editingId := None;
        case OtherKey =>
      }
    }

    /** `handleDeleteClick`: remember the conversation, open the dialog. */
    method DeleteClick(conversationId: string)
      requires Valid()
      modifies this
      ensures Valid()
      ensures State() == old(State()).(deletingId := Some(conversationId), dialogOpen := true)
    {
      deletingId := Some(conversationId);
      dialogOpen := true;
    }

    /** `handleDeleteConfirm`, behind the dialog's action button, which is
        disabled while a delete is pending: without a (truthy) remembered
        conversation it does nothing; otherwise the delete is sent and
        becomes pending. */
    method DeleteConfirm()
      requires Valid()
      modifies this
      ensures Valid()
      ensures old(deleting) || !Truthy(old(deletingId)) ==> State() == old(State())
      ensures !old(deleting) && Truthy(old(deletingId)) ==>
        State() == old(State()).(deletes := old(deletes) + [old(deletingId).value], deleting := true)
    {
      if !deleting && Truthy(deletingId) {
        deletes := deletes + [deletingId.value];
        deleting := true;
      }
    }

    /** The delete's `onSuccess` and `onError` alike: no longer pending,
        the conversation forgotten and the dialog closed. */
    method DeleteSettled()
      requires Valid()
      modifies this
      ensures Valid()
      ensures State() == old(State()).(deletingId := None, dialogOpen := false, deleting := false)
    {
      deletingId := None;
      dialogOpen := false;
      deleting := false;
    }

    /** The dialog's `onOpenChange`: closing it forgets the conversation. */
    method DialogOpenChange(open: bool)
      requires Valid()
      modifies this
      ensures Valid()
      ensures open ==> State() == old(State()).(dialogOpen := true)
      ensures !open ==> State() == old(State()).(dialogOpen := false, deletingId := None)
    {
      dialogOpen := open;
      if !open {
        deletingId := None;
      }
    }

    /** `handleSignOut`, behind the sign-out button, which is disabled
        while a revoke is pending: with a refresh token stored it is revoked
        (the tokens stay until that succeeds); without one the page goes to
        the sign-in route directly. */
    method SignOut()
      requires Valid()
      modifies this
      ensures Valid()
      ensures old(revoking) ==> State() == old(State())
      ensures !old(revoking) && RefreshTokenKey in old(storage) && old(storage)[RefreshTokenKey] != "" ==>
        State() == old(State()).(revokes := old(revokes) + [old(storage)[RefreshTokenKey]], revoking := true)
      ensures !old(revoking) && !(RefreshTokenKey in old(storage) && old(storage)[RefreshTokenKey] != "") ==>
        State() == old(State()).(location := Some(SignInPath))
    {
      if revoking {
        return;
      }
      if RefreshTokenKey in storage && storage[RefreshTokenKey] != "" {
        revokes := revokes + [storage[RefreshTokenKey]];
        revoking := true;
      } else {
        location := Some(SignInPath);
      }
    }

    /** The revoke's `onSuccess`: no longer pending, both tokens removed,
        then the sign-in route. */
    method RevokeSucceeded()
      requires Valid()
      modifies this
      ensures Valid()
      ensures State() == old(State()).(storage := old(storage) - {AccessTokenKey, RefreshTokenKey},
                                       location := Some(SignInPath), revoking := false)
    {
      storage := storage - {AccessTokenKey, RefreshTokenKey};
      location := Some(SignInPath);
      revoking := false;
    }

    /** The revoke's `onError`: only logged; the tokens stay, and sign-out
        is enabled again. */
    method RevokeFailed()
      requires Valid()
      modifies this
      ensures Valid()
      ensures State() == old(State()).(revoking := false)
    {
      revoking := false;
    }
  }

  /** Deleting a conversation: the dialog opens, and confirming sends
      exactly that conversation. The dialog's action button closes the
      dialog right after its click handler, which arrives as
      `onOpenChange(false)` before the call settles; at the end the dialog is
      closed with nothing remembered. */
  method DeleteFlow(conversationId: string) returns (sent: seq<string>, open: bool, remembered: bool)
    requires conversationId != ""
    ensures sent == [conversationId] && !open && !remembered
  {
    var sidebar := new Sidebar(map[]);
    sidebar.DeleteClick(conversationId);
    sidebar.DeleteConfirm();
    sidebar.DialogOpenChange(false);
    sidebar.DeleteSettled();
    sent := sidebar.deletes;
    open := sidebar.dialogOpen;
    remembered := sidebar.deletingId.Some?;
  }

  /** A padded draft is sent trimmed. */
  lemma PaddedNameRequest(conversationId: string)
    requires conversationId != ""
    ensures RenameRequest(Some(conversationId), "  Notes ") == Some(Update(conversationId, "Notes"))
  {
    assert "  Notes " == "  " + "Notes" + " ";
    RenameIgnoresPadding(Some(conversationId), "Notes", "  ", " ");
    TrimStartPadded([], "Notes");
    TrimEndPadded("Notes", []);
    assert [] + "Notes" == "Notes" + [] == "Notes";
  }

  /** While a rename is pending the input, the check button and the cancel
      button are disabled: a second submit and Escape change nothing, so
      one update is sent and edit mode stays until it succeeds. */
  method DoubleRenameSendsOnce(conversationId: string) returns (sent: seq<Update>, editing: Option<string>)
    requires conversationId != ""
    ensures sent == [Update(conversationId, "Notes")] && editing == Some(conversationId)
  {
    PaddedNameRequest(conversationId);
    var sidebar := new Sidebar(map[]);
    sidebar.EditClick(conversationId, "  Notes ");
    sidebar.RenameSubmit();
    sidebar.RenameSubmit();
    sidebar.KeyDown(Escape);
    sent := sidebar.updates;
    editing := sidebar.editingId;
  }

  /** Clicking sign-out twice while the revoke is pending revokes once. */
  method DoubleSignOutRevokesOnce(token: string) returns (revoked: seq<string>)
    requires token != ""
    ensures revoked == [token]
  {
    var sidebar := new Sidebar(map[RefreshTokenKey := token]);
    sidebar.SignOut();
    sidebar.SignOut();
    revoked := sidebar.revokes;
  }

  /** Cancelling the dialog and then confirming sends no delete. */
  method CancelledDeleteSendsNothing(conversationId: string) returns (sent: seq<string>)
    ensures sent == []
  {
    var sidebar := new Sidebar(map[]);
    sidebar.DeleteClick(conversationId);
    sidebar.DialogOpenChange(false);
    sidebar.DeleteConfirm();
    sent := sidebar.deletes;
  }
}
