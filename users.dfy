/**
 * The user directory: the workspace member list as `slack_users` filters
 * it (the cached `users.json` record), and the first-match lookup
 * `get_user_data` that the conversation engine uses for profiles.
 */
module Users {

  /** One member of the workspace as the `users.list` answer describes it. */
  datatype Member = Member(
    id: string,
    realName: string,
    image72: string,
    deleted: bool,
    isBot: bool,
    isAppUser: bool)

  /** One record of the cached directory. */
  datatype UserRecord = UserRecord(id: string, name: string, image: string)

  /** The two fields `get_user_data` is asked for: `name` and `image`. */
  datatype Field = Name | Image

  /** A member `slack_users` keeps: not deleted, not a bot, not an app user. */
  predicate Kept(m: Member)
  {
    !m.deleted && !m.isBot && !m.isAppUser
  }

  /** The record `slack_users` builds for a kept member. */
  function RecordOf(m: Member): UserRecord
  {
    UserRecord(m.id, m.realName, m.image72)
  }

  /** The directory `slack_users` builds: the records of the kept members, in order. */
  function Directory(ms: seq<Member>): (r: seq<UserRecord>)
    ensures |r| <= |ms|
    ensures forall u :: u in r <==> exists m :: m in ms && Kept(m) && RecordOf(m) == u
  {
    if ms == [] then []
    else
      var init := ms[..|ms| - 1];
      var last := ms[|ms| - 1];
      assert ms == init + [last];
      if Kept(last) then Directory(init) + [RecordOf(last)] else Directory(init)
  }

  /** Appending a member appends its record exactly when the member is kept. */
  lemma DirectorySnoc(init: seq<Member>, last: Member)
    ensures Directory(init + [last]) == if Kept(last) then Directory(init) + [RecordOf(last)] else Directory(init)
  {
    var ms := init + [last];
    assert ms[..|ms| - 1] == init;
    assert ms[|ms| - 1] == last;
  }

  /** A single member gives its record exactly when it is kept. */
  lemma DirectorySingle(m: Member)
    ensures Directory([m]) == if Kept(m) then [RecordOf(m)] else []
  {
    assert [m][..0] == [];
  }

  /**
   * `Directory` distributes over concatenation, so with `DirectorySingle` it
   * holds one record per kept member, in member-list order.
   */
  lemma {:induction false} DirectoryDistributes(a: seq<Member>, b: seq<Member>)
    ensures Directory(a + b) == Directory(a) + Directory(b)
  {
    if b == [] {
      assert a + b == a;
    } else {
      var b' := b[..|b| - 1];
      var last := b[|b| - 1];
      assert b == b' + [last];
      assert a + b == (a + b') + [last];
      DirectorySnoc(a + b', last);
      DirectorySnoc(b', last);
      DirectoryDistributes(a, b');
    }
  }

  /** `slack_users`'s loop over the member list. */
  method SlackUsers(ms: seq<Member>) returns (r: seq<UserRecord>)
    ensures r == Directory(ms)
  {
    r := [];
    var i := 0;
    while i < |ms|
      invariant 0 <= i <= |ms|
      invariant r == Directory(ms[..i])
    {
      assert ms[..i + 1][..i] == ms[..i];
      var m := ms[i];
      if m.deleted || m.isBot || m.isAppUser {
        i := i + 1;
        continue;
      }
      r := r + [UserRecord(m.id, m.realName, m.image72)];
      i := i + 1;
    }
    assert ms[..|ms|] == ms;
  }

  function FieldOf(u: UserRecord, f: Field): string
  {
    match f
    case Name => u.name
    case Image => u.image
  }

  /** `i` is the first position whose record has id `id`. */
  predicate FirstWith(users: seq<UserRecord>, id: string, i: int)
  {
    0 <= i < |users| && users[i].id == id && forall j :: 0 <= j < i ==> users[j].id != id
  }

  /**
   * `get_user_data(field, id)`: the field of the FIRST record whose id is
   * `id`, or "Undefined" when no record has that id.
   */
  function UserData(users: seq<UserRecord>, f: Field, id: string): (r: string)
    ensures (forall i :: 0 <= i < |users| ==> users[i].id != id) ==> r == "Undefined"
    ensures forall i :: FirstWith(users, id, i) ==> r == FieldOf(users[i], f)
  {
    if users == [] then "Undefined"
    else if users[0].id == id then FieldOf(users[0], f)
    else
      var rest := users[1..];
      assert forall i :: FirstWith(users, id, i) ==> i > 0 && FirstWith(rest, id, i - 1) && rest[i - 1] == users[i];
      assert (forall i :: 0 <= i < |users| ==> users[i].id != id) ==> forall i :: 0 <= i < |rest| ==> rest[i].id != id;
      UserData(rest, f, id)
  }
}
