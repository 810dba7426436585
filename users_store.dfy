/** The user hook: the user list with its loading and error state, and the load,
    create and update operations with their local fallbacks. */
module UsersStore {
  import opened Common
  import opened FrontendTypes

  /** `Omit<User, "id">`: what a new user is submitted with. */
  datatype UserDraft = UserDraft(name: string, email: string, role: string, managerId: Option<string>)

  /** The fallback record for a new user: the submitted fields under the generated id. */
  function LocalUser(d: UserDraft, newId: string): (u: User)
    ensures u.id == newId
    ensures u.name == d.name && u.email == d.email && u.role == d.role && u.managerId == d.managerId
  {
    User(newId, d.name, d.email, d.role, d.managerId)
  }

  /** The fallback for an update: the patch spread over the first user with that id,
      or the patch alone when there is none. */
  function LocalUpdate(users: seq<User>, userId: string, patch: UserPatch): (u: Updated<User, UserPatch>)
    ensures u.PatchOnly? <==> forall j | 0 <= j < |users| :: users[j].id != userId
    ensures u.PatchOnly? ==> u.patch == patch
    ensures u.Whole? ==> exists j | 0 <= j < |users| ::
      && users[j].id == userId
      && (forall k | 0 <= k < j :: users[k].id != userId)
      && u.value == MergeUser(users[j], patch)
  {
    match IndexOfId(users, UserId, userId)
    case Some(j) => Whole(MergeUser(users[j], patch))
    case None => PatchOnly(patch)
  }

  /** The list after an update: entries with that id become the new record; a patch
      alone matches nothing in the list. */
  function AfterUpdate(users: seq<User>, userId: string, u: Updated<User, UserPatch>): (r: seq<User>)
    ensures |r| == |users|
    ensures u.Whole? ==> r == ReplaceById(users, UserId, userId, u.value)
    ensures u.PatchOnly? && (forall j | 0 <= j < |users| :: users[j].id != userId) ==> r == users
  {
    match u
    case Whole(v) => ReplaceById(users, UserId, userId, v)
    case PatchOnly(_) => users
  }

  /** An empty patch through the fallback leaves a list of distinct ids as it was.
      (With a repeated id, every copy would become the first one.) */
  lemma {:induction false} EmptyPatchChangesNothing(users: seq<User>, userId: string)
    requires forall i, j | 0 <= i < j < |users| :: users[i].id != users[j].id
    ensures AfterUpdate(users, userId, LocalUpdate(users, userId, UserPatch(None, None, None, None, None))) == users
  {
    var u := LocalUpdate(users, userId, UserPatch(None, None, None, None, None));
    if u.Whole? {
      var r := AfterUpdate(users, userId, u);
      forall k | 0 <= k < |users| ensures r[k] == users[k] {
        if users[k].id == userId {
          var first := IndexOfId(users, UserId, userId);
          assert first.Some? && u.value == users[first.value];
          assert k == first.value;
        }
      }
    }
  }

  class UsersHook {
    var users: seq<User>
    var loading: bool
    var error: Option<string>

    constructor ()
      ensures users == [] && !loading && error == None
    {
      users := [];
      loading := false;
      error := None;
    }

    /** The start of `fetchUsers`, before its `await`. */
    method BeginFetch()
      modifies this
      ensures loading && error == None && users == old(users)
    {
      loading := true;
      error := None;
    }

    /** The rest of `fetchUsers`: the fetched list, or none when the call failed. */
    method FinishFetch(reply: Outcome<seq<User>>)
      modifies this
      ensures !loading && error == old(error)
      ensures users == if reply.Returned? then reply.value else []
    {
      users := if reply.Returned? then reply.value else [];
      loading := false;
    }

    /** `createUser`: the server's record, or the local one, is appended and returned. */
    method CreateUser(draft: UserDraft, reply: Outcome<User>, newId: string) returns (created: User)
      modifies this
      ensures created == if reply.Returned? then reply.value else LocalUser(draft, newId)
      ensures users == old(users) + [created]
      ensures error == None && loading == old(loading)
    {
      error := None;
      created := if reply.Returned? then reply.value else LocalUser(draft, newId);
      users := users + [created];
    }

    /** `updateUser`: the server's record, or the local merge, replaces every user
        with that id and is returned. */
    method UpdateUser(userId: string, patch: UserPatch, reply: Outcome<User>) returns (updated: Updated<User, UserPatch>)
      modifies this
      ensures updated == if reply.Returned? then Whole(reply.value) else LocalUpdate(old(users), userId, patch)
      ensures users == AfterUpdate(old(users), userId, updated)
      ensures forall i | 0 <= i < |users| && old(users)[i].id != userId :: users[i] == old(users)[i]
      ensures error == None && loading == old(loading)
    {
      error := None;
      if reply.Returned? {
        updated := Whole(reply.value);
      } else {
        updated := LocalUpdate(users, userId, patch);
      }
      users := AfterUpdate(users, userId, updated);
    }
  }
}
