/** The profile editor: load-or-create of the signed-in user's row, the
    avatar upload, the update that writes the edited fields back, and the
    avatar picker. */
module Profile {
  import opened Nullable
  import opened Storage
  import opened Backend

  const AuthRoute := "/auth"
  const AvatarBucket := "avatars"

  /** The row created for a user who has none yet. */
  function NewProfileRow(id: string, now: string): ProfileRow {
    ProfileRow(id, Some(""), Some(""), None, now)
  }

  /** The editable fields of the form. */
  datatype Fields = Fields(fullName: string, username: string, avatarUrl: Option<string>)

  /** The fields a stored row fills in: missing names become "". */
  function FieldsOf(row: ProfileRow): (f: Fields)
    ensures f.fullName == (if row.fullName.Some? then row.fullName.value else "")
    ensures f.username == (if row.username.Some? then row.username.value else "")
    ensures f.avatarUrl == row.avatarUrl
  {
    Fields(OrElse(row.fullName, ""), OrElse(row.username, ""), row.avatarUrl)
  }

  datatype LoadOutcome =
    | RedirectedToAuth
    | Populated(fields: Fields)
    | Created
    | LoadFailed

  datatype LoadAttempt = LoadAttempt(steps: seq<Step>, outcome: LoadOutcome)

  /** Loading the profile on mount: no session sends the user to sign in;
      otherwise the user's row is read, and either fills the form or, when
      there is none, a fresh row is inserted. */
  function Load(t: Tables, session: Option<Session>, selectAvailable: bool, insertAvailable: bool,
                now: string): (a: LoadAttempt)
    ensures a.outcome == RedirectedToAuth <==> session.None?
    ensures session.None? ==> a.steps == []
    ensures session.Some? ==> |a.steps| >= 1 && a.steps[0] == Step(SelectProfile(session.value.userId), selectAvailable)
    ensures a.outcome.Populated? <==>
      session.Some? && selectAvailable && session.value.userId in t.profiles
    ensures a.outcome.Populated? ==> a.outcome.fields == FieldsOf(t.profiles[session.value.userId])
    ensures session.Some? && selectAvailable && session.value.userId !in t.profiles ==>
      a.steps == [Step(SelectProfile(session.value.userId), true),
                  Step(InsertProfile(NewProfileRow(session.value.userId, now)), insertAvailable)]
    ensures !(session.Some? && selectAvailable && session.value.userId !in t.profiles) ==>
      forall k :: 0 <= k < |a.steps| ==> !a.steps[k].call.InsertProfile?
    ensures session.Some? && !(selectAvailable && session.value.userId !in t.profiles) ==>
      a.steps == [Step(SelectProfile(session.value.userId), selectAvailable)]
    ensures a.outcome == Created <==>
      session.Some? && selectAvailable && session.value.userId !in t.profiles && insertAvailable
  {
    if session.None? then LoadAttempt([], RedirectedToAuth)
    else
      var id := session.value.userId;
      var select := Step(SelectProfile(id), selectAvailable);
      if !selectAvailable then LoadAttempt([select], LoadFailed)
      else if id in t.profiles then LoadAttempt([select], Populated(FieldsOf(t.profiles[id])))
      else
        var insert := Step(InsertProfile(NewProfileRow(id, now)), insertAvailable);
        LoadAttempt([select, insert], if insertAvailable then Created else LoadFailed)
  }

  /** A load that creates a row creates exactly one: the user's, with empty
      names and no avatar; nothing else in the backend changes. */
  lemma LoadCreatesOneRow(t: Tables, s: Session, selectAvailable: bool, insertAvailable: bool, now: string)
    requires Load(t, Some(s), selectAvailable, insertAvailable, now).outcome == Created
    ensures s.userId !in t.profiles
    ensures Replay(t, Load(t, Some(s), selectAvailable, insertAvailable, now).steps) ==
      t.(profiles := t.profiles[s.userId := NewProfileRow(s.userId, now)])
    ensures |Replay(t, Load(t, Some(s), selectAvailable, insertAvailable, now).steps).profiles| == |t.profiles| + 1
  {
    var a := Load(t, Some(s), selectAvailable, insertAvailable, now);
    ReplaySnoc(t, [], a.steps[0]);
    ReplaySnoc(t, [a.steps[0]], a.steps[1]);
    assert a.steps == [a.steps[0]] + [a.steps[1]];
  }

  /** Loading is idempotent on the table: once a load has populated the form
      or created the row, a second load for the same user finds the row,
      inserts nothing and leaves the backend as it was. */
  lemma LoadIsIdempotent(t: Tables, s: Session, insert1: bool, insert2: bool, now1: string, now2: string)
    requires Load(t, Some(s), true, insert1, now1).outcome == Created ||
             Load(t, Some(s), true, insert1, now1).outcome.Populated?
    ensures var t1 := Replay(t, Load(t, Some(s), true, insert1, now1).steps);
      var second := Load(t1, Some(s), true, insert2, now2);
      && second.outcome.Populated?
      && second.steps == [Step(SelectProfile(s.userId), true)]
      && Replay(t1, second.steps) == t1
      && t1.profiles.Keys == t.profiles.Keys + {s.userId}
  {
    var a := Load(t, Some(s), true, insert1, now1);
    if a.outcome == Created {
      LoadCreatesOneRow(t, s, true, insert1, now1);
    } else {
      ReplayInert(t, a.steps);
    }
    var t1 := Replay(t, a.steps);
    ReplayInert(t1, Load(t1, Some(s), true, insert2, now2).steps);
  }

  /** Where an avatar goes: a fresh name and the file's extension, in the
      avatars bucket. */
  function AvatarKey(freshName: string, file: File): ObjectKey {
    ObjectKey(AvatarBucket, ObjectPath("", freshName, file.name))
  }

  /** An avatar keeps its file's extension, and two avatars stored under
      different UUIDs never share a path. */
  lemma AvatarKeyShape(u1: string, f1: File, u2: string, f2: File)
    requires IsUuid(u1) && IsUuid(u2) && u1 != u2
    ensures AvatarKey(u1, f1).bucket == AvatarBucket
    ensures Extension(AvatarKey(u1, f1).path) == Extension(f1.name)
    ensures AvatarKey(u1, f1) != AvatarKey(u2, f2)
  {
    ObjectPathKeepsExtension("", u1, f1.name);
    UuidHasNoSeparators(u1);
    UuidHasNoSeparators(u2);
    if AvatarKey(u1, f1) == AvatarKey(u2, f2) {
      ObjectPathInjective("", u1, f1.name, u2, f2.name);
    }
  }

  datatype UpdateStage = NoSession | AvatarUploadFailed | UpdateRejected

  datatype UpdateOutcome = Saved | UpdateFailed(stage: UpdateStage)

  datatype UpdateAttempt = UpdateAttempt(steps: seq<Step>, outcome: UpdateOutcome)

  /** The avatar URL an update writes: a newly picked file's public URL, or
      the URL the form holds. */
  function AvatarToWrite(f: Fields, avatar: Option<File>, freshName: string): (url: Option<string>)
    ensures avatar.None? ==> url == f.avatarUrl
    ensures avatar.Some? ==> url == Some(PublicUrl(AvatarKey(freshName, avatar.value)))
  {
    if avatar.Some? then Some(PublicUrl(AvatarKey(freshName, avatar.value))) else f.avatarUrl
  }

  /** Saving the form: with a picked avatar, upload it first; a failed
      upload ends the save. Then the user's row is updated. */
  function Update(session: Option<Session>, f: Fields, avatar: Option<File>, freshName: string,
                  uploadAvailable: bool, updateAvailable: bool, now: string): (a: UpdateAttempt)
    ensures session.None? ==> a == UpdateAttempt([], UpdateFailed(NoSession))
    ensures a.outcome == Saved <==>
      session.Some? && (avatar.Some? ==> uploadAvailable) && updateAvailable
    ensures avatar.Some? && !uploadAvailable ==>
      forall k :: 0 <= k < |a.steps| ==> !a.steps[k].call.UpdateProfile?
    ensures forall k :: 0 <= k < |a.steps| && a.steps[k].call.UpdateProfile? ==>
      a.steps[k].call == UpdateProfile(session.value.userId,
        ProfileChanges(f.fullName, f.username, AvatarToWrite(f, avatar, freshName), now))
    ensures session.Some? && avatar.None? ==>
      |a.steps| == 1 && a.steps[0].call.UpdateProfile? && a.steps[0].ok == updateAvailable
    ensures session.Some? && avatar.Some? ==>
      1 <= |a.steps| && a.steps[0] == Step(Upload(AvatarKey(freshName, avatar.value), avatar.value), uploadAvailable)
    ensures session.Some? && avatar.Some? && uploadAvailable ==>
      |a.steps| == 2 && a.steps[1].call.UpdateProfile? && a.steps[1].ok == updateAvailable
    ensures session.Some? && avatar.Some? && !uploadAvailable ==> |a.steps| == 1
  {
    if session.None? then UpdateAttempt([], UpdateFailed(NoSession))
    else
      var changes := ProfileChanges(f.fullName, f.username, AvatarToWrite(f, avatar, freshName), now);
      var update := Step(UpdateProfile(session.value.userId, changes), updateAvailable);
      var saved := if updateAvailable then Saved else UpdateFailed(UpdateRejected);
      if avatar.None? then UpdateAttempt([update], saved)
      else
        var upload := Step(Upload(AvatarKey(freshName, avatar.value), avatar.value), uploadAvailable);
        if !uploadAvailable then UpdateAttempt([upload], UpdateFailed(AvatarUploadFailed))
        else UpdateAttempt([upload, update], saved)
  }

  /** A save changes the signed-in user's row and no other; the row keeps its
      key and gets the form's names, the chosen avatar URL and the new time.
      Without a row for the user, nothing is changed. */
  lemma UpdateTouchesOnlyOwnRow(t: Tables, s: Session, f: Fields, avatar: Option<File>, freshName: string,
                                uploadAvailable: bool, now: string)
    requires Update(Some(s), f, avatar, freshName, uploadAvailable, true, now).outcome == Saved
    ensures var t1 := Replay(t, Update(Some(s), f, avatar, freshName, uploadAvailable, true, now).steps);
      && t1.profiles.Keys == t.profiles.Keys
      && (forall id :: id in t.profiles && id != s.userId ==> t1.profiles[id] == t.profiles[id])
      && (s.userId in t.profiles ==>
            t1.profiles[s.userId] ==
              t.profiles[s.userId].(fullName := Some(f.fullName), username := Some(f.username),
                                    avatarUrl := AvatarToWrite(f, avatar, freshName), updatedAt := now))
      && t1.videos == t.videos
  {
    var a := Update(Some(s), f, avatar, freshName, uploadAvailable, true, now);
    var n := |a.steps|;
    var uploads := a.steps[..n - 1];
    assert a.steps == uploads + [a.steps[n - 1]];
    ReplaySnoc(t, uploads, a.steps[n - 1]);
    if uploads != [] {
      ReplaySnoc(t, [], uploads[0]);
      assert uploads == [] + [uploads[0]];
    }
  }

  /** The letter in the avatar placeholder: the first letter of the full
      name, else of the username, else "?". */
  function ProfileInitial(fullName: string, username: string): (r: string)
    ensures |r| == 1
    ensures fullName != "" ==> r[0] == fullName[0]
    ensures fullName == "" && username != "" ==> r[0] == username[0]
    ensures fullName == "" && username == "" ==> r == "?"
  {
    if fullName != "" then [fullName[0]]
    else if username != "" then [username[0]]
    else "?"
  }

  /** The editor component's state. */
  class UserProfile {
    var loading: bool
    var fullName: string
    var username: string
    var avatar: Option<File>
    var avatarUrl: Option<string>
    var navigations: seq<string>

    function Form(): Fields
      reads this
    {
      Fields(fullName, username, avatarUrl)
    }

    constructor ()
      ensures !loading && Form() == Fields("", "", None) && avatar.None? && navigations == []
    {
      loading := false;
      fullName := "";
      username := "";
      avatar := None;
      avatarUrl := None;
      navigations := [];
    }

    method SetFullName(name: string)
      modifies this
      ensures Form() == old(Form()).(fullName := name)
      ensures avatar == old(avatar) && loading == old(loading) && navigations == old(navigations)
    {
      fullName := name;
    }

    method SetUsername(name: string)
      modifies this
      ensures Form() == old(Form()).(username := name)
      ensures avatar == old(avatar) && loading == old(loading) && navigations == old(navigations)
    {
      username := name;
    }

    /** The avatar picker: a picked file becomes the pending avatar and its
        preview the shown URL; an empty pick changes nothing. */
    method SelectAvatar(file: Option<File>, previewUrl: string)
      modifies this
      ensures file.Some? ==> avatar == file && avatarUrl == Some(previewUrl)
      ensures file.None? ==> avatar == old(avatar) && avatarUrl == old(avatarUrl)
      ensures fullName == old(fullName) && username == old(username)
      ensures loading == old(loading) && navigations == old(navigations)
    {
      if file.Some? {
        avatar := file;
        avatarUrl := Some(previewUrl);
      }
    }

    /** The load on mount, following `Load`. */
    method LoadProfile(store: Store, session: Option<Session>, selectAvailable: bool, insertAvailable: bool,
                       now: string) returns (outcome: LoadOutcome)
      modifies this, store
      ensures var a := Load(old(store.tables), session, selectAvailable, insertAvailable, now);
        && outcome == a.outcome
        && store.log == old(store.log) + a.steps
        && store.tables == Replay(old(store.tables), a.steps)
      ensures navigations == old(navigations) + if outcome == RedirectedToAuth then [AuthRoute] else []
      ensures Form() == if outcome.Populated? then outcome.fields else old(Form())
      ensures avatar == old(avatar) && loading == old(loading)
    {
      ghost var tables0 := store.tables;
      if session.None? {
        navigations := navigations + [AuthRoute];
        return RedirectedToAuth;
      }
      var id := session.value.userId;
      var ok, row := store.SelectProfile(id, selectAvailable);
      ReplaySnoc(tables0, [], Step(SelectProfile(id), ok));
      if !ok {
        return LoadFailed;
      }
      if row.Some? {
        fullName := OrElse(row.value.fullName, "");
        username := OrElse(row.value.username, "");
        avatarUrl := row.value.avatarUrl;
        return Populated(Form());
      }
      var insert := Step(InsertProfile(NewProfileRow(id, now)), insertAvailable);
      ok := store.Perform(insert.call, insertAvailable);
      ReplaySnoc(tables0, [Step(SelectProfile(id), true)], insert);
      assert [Step(SelectProfile(id), true)] + [insert] == [Step(SelectProfile(id), true), insert];
      outcome := if ok then Created else LoadFailed;
    }

    /** Uploads a picked avatar; `None` stands for the thrown error. */
    method UploadAvatar(store: Store, file: File, freshName: string, available: bool) returns (url: Option<string>)
      modifies store
      ensures url == if available then Some(PublicUrl(AvatarKey(freshName, file))) else None
      ensures store.log == old(store.log) + [Step(Upload(AvatarKey(freshName, file), file), available)]
      ensures store.tables == Effect(old(store.tables), Step(Upload(AvatarKey(freshName, file), file), available))
    {
      var key := AvatarKey(freshName, file);
      var ok := store.Perform(Upload(key, file), available);
      url := if ok then Some(PublicUrl(key)) else None;
    }

    /** The save button, following `Update`. The form keeps what it shows,
        and the picked avatar stays pending. */
    method UpdateProfile(store: Store, session: Option<Session>, freshName: string, uploadAvailable: bool,
                         updateAvailable: bool, now: string) returns (outcome: UpdateOutcome)
      modifies this, store
      ensures var a := Update(session, old(Form()), old(avatar), freshName, uploadAvailable, updateAvailable, now);
        && outcome == a.outcome
        && store.log == old(store.log) + a.steps
        && store.tables == Replay(old(store.tables), a.steps)
      ensures Form() == old(Form()) && avatar == old(avatar) && navigations == old(navigations)
      ensures !loading
    {
      ghost var f := Form();
      ghost var tables0 := store.tables;
      loading := true;
      if session.None? {
        loading := false;
        return UpdateFailed(NoSession);
      }
      var id := session.value.userId;
      if avatar.None? {
        var update := Step(Call.UpdateProfile(id, ProfileChanges(fullName, username, avatarUrl, now)), updateAvailable);
        var ok := store.Perform(update.call, updateAvailable);
        ReplaySnoc(tables0, [], update);
        assert [update] == [] + [update];
        assert Update(session, f, avatar, freshName, uploadAvailable, updateAvailable, now).steps == [update];
        outcome := if ok then Saved else UpdateFailed(UpdateRejected);
      } else {
        var file := avatar.value;
        var upload := Step(Upload(AvatarKey(freshName, file), file), uploadAvailable);
        var url := UploadAvatar(store, file, freshName, uploadAvailable);
        ReplaySnoc(tables0, [], upload);
        assert [upload] == [] + [upload];
        if url.None? {
          assert Update(session, f, avatar, freshName, uploadAvailable, updateAvailable, now).steps == [upload];
          outcome := UpdateFailed(AvatarUploadFailed);
        } else {
          var update := Step(Call.UpdateProfile(id, ProfileChanges(fullName, username, url, now)), updateAvailable);
          var ok := store.Perform(update.call, updateAvailable);
          ReplaySnoc(tables0, [upload], update);
          assert [upload, update] == [upload] + [update];
          assert Update(session, f, avatar, freshName, uploadAvailable, updateAvailable, now).steps == [upload, update];
          outcome := if ok then Saved else UpdateFailed(UpdateRejected);
        }
      }
      loading := false;
    }
  }
}
