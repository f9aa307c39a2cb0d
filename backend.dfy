/** The hosted backend as the components use it: an object store and two
    tables (videos, profiles), reached by calls that either succeed or fail.
    Whether a call succeeds is the backend's decision, so it reaches the
    model as a parameter; a failed call changes nothing. */
module Backend {
  import opened Nullable
  import opened Storage

  /** The signed-in user, as far as the components read it. */
  datatype Session = Session(userId: string)

  /** A row of the videos table as the upload inserts it. */
  datatype VideoRecord = VideoRecord(
    title: string,
    description: string,
    videoUrl: string,
    thumbnailUrl: Option<string>,
    userId: string)

  /** A row of the profiles table, keyed by the user's id. */
  datatype ProfileRow = ProfileRow(
    id: string,
    username: Option<string>,
    fullName: Option<string>,
    avatarUrl: Option<string>,
    updatedAt: string)

  /** The columns a profile update writes. */
  datatype ProfileChanges = ProfileChanges(
    fullName: string,
    username: string,
    avatarUrl: Option<string>,
    updatedAt: string)

  datatype Call =
    | Upload(key: ObjectKey, file: File)
    | InsertVideo(record: VideoRecord)
    | SelectProfile(id: string)
    | InsertProfile(row: ProfileRow)
    | UpdateProfile(id: string, changes: ProfileChanges)

  /** One call made to the backend and whether it succeeded. */
  datatype Step = Step(call: Call, ok: bool)

  datatype Tables = Tables(
    objects: map<ObjectKey, File>,
    videos: seq<VideoRecord>,
    profiles: map<string, ProfileRow>)

  /** The row an update leaves behind: the written columns replaced, the
      key kept. */
  function Updated(row: ProfileRow, ch: ProfileChanges): (r: ProfileRow)
    ensures r.id == row.id
    ensures r.fullName == Some(ch.fullName) && r.username == Some(ch.username)
    ensures r.avatarUrl == ch.avatarUrl && r.updatedAt == ch.updatedAt
  {
    row.(fullName := Some(ch.fullName), username := Some(ch.username),
         avatarUrl := ch.avatarUrl, updatedAt := ch.updatedAt)
  }

  /** Whether the tables admit a call: the profiles table refuses a second
      row with an existing primary key. */
  predicate Admits(t: Tables, call: Call) {
    call.InsertProfile? ==> call.row.id !in t.profiles
  }

  /** What a step does to the tables. An update whose filter matches no row
      is not an error; it changes nothing. */
  function Effect(t: Tables, s: Step): (r: Tables)
    ensures !s.ok || s.call.SelectProfile? ==> r == t
    ensures !s.call.Upload? ==> r.objects == t.objects
    ensures !s.call.InsertVideo? ==> r.videos == t.videos
    ensures s.call.Upload? || s.call.InsertVideo? ==> r.profiles == t.profiles
  {
    if !s.ok then t
    else match s.call
      case Upload(key, file) => t.(objects := t.objects[key := file])
      case InsertVideo(record) => t.(videos := t.videos + [record])
      case SelectProfile(_) => t
      case InsertProfile(row) => t.(profiles := t.profiles[row.id := row])
      case UpdateProfile(id, ch) =>
        if id in t.profiles then t.(profiles := t.profiles[id := Updated(t.profiles[id], ch)]) else t
  }

  /** The tables after a sequence of steps, applied in order. */
  function Replay(t: Tables, steps: seq<Step>): Tables
    decreases |steps|
  {
    if steps == [] then t else Effect(Replay(t, steps[..|steps| - 1]), steps[|steps| - 1])
  }

  /** One more step acts on the tables the earlier steps left. */
  lemma ReplaySnoc(t: Tables, steps: seq<Step>, s: Step)
    ensures Replay(t, steps + [s]) == Effect(Replay(t, steps), s)
  {
    assert (steps + [s])[..|steps|] == steps;
  }

  /** Steps that all failed, or only read, leave the tables as they were. */
  lemma {:induction false} ReplayInert(t: Tables, steps: seq<Step>)
    requires forall k :: 0 <= k < |steps| ==> !steps[k].ok || steps[k].call.SelectProfile?
    ensures Replay(t, steps) == t
    decreases |steps|
  {
    if steps != [] {
      ReplayInert(t, steps[..|steps| - 1]);
    }
  }

  /** The backend: the tables and the log of every call made to it. */
  class Store {
    var tables: Tables
    var log: seq<Step>

    constructor (initial: Tables)
      ensures tables == initial && log == []
    {
      tables := initial;
      log := [];
    }

    /** Makes one call. `available` is whether the backend accepts it at
        all; the tables can still refuse it. */
    method Perform(call: Call, available: bool) returns (ok: bool)
      modifies this
      ensures ok == (available && Admits(old(tables), call))
      ensures log == old(log) + [Step(call, ok)]
      ensures tables == Effect(old(tables), Step(call, ok))
    {
      ok := available && Admits(tables, call);
      log := log + [Step(call, ok)];
      tables := Effect(tables, Step(call, ok));
    }

    /** Reads the profile row of a user: zero or one row, as the table is
        keyed by id. */
    method SelectProfile(id: string, available: bool) returns (ok: bool, row: Option<ProfileRow>)
      modifies this
      ensures ok == available
      ensures row == if ok && id in old(tables).profiles then Some(old(tables).profiles[id]) else None
      ensures log == old(log) + [Step(Call.SelectProfile(id), ok)]
      ensures tables == old(tables)
    {
      ok := Perform(Call.SelectProfile(id), available);
      row := if ok && id in tables.profiles then Some(tables.profiles[id]) else None;
    }
  }
}
