/**
 * The project store: the list of projects and the current project, and the
 * four operations that replace them (create, append a message, set the code,
 * select).
 *
 * Each operation is a closure created at render time: it reads the `projects`
 * and `currentProject` of that render, computes new values from them and
 * writes both back (last write wins). A `ProjectState` is such a captured
 * snapshot; the `...On` functions say what an operation computes from it and
 * the `ProjectStore` methods write the result into the live state.
 */
module ProjectContext {
  import opened Types

  /** The provider's two pieces of state, as one render saw them. */
  datatype ProjectState = ProjectState(projects: seq<Project>, current: Option<Project>)

  /** `projects.map(p => p.id === updated.id ? updated : p)` */
  function ReplaceById(ps: seq<Project>, updated: Project): (r: seq<Project>)
    ensures |r| == |ps|
    ensures forall i :: 0 <= i < |ps| ==> r[i] == (if ps[i].id == updated.id then updated else ps[i])
  {
    if ps == [] then []
    else [if ps[0].id == updated.id then updated else ps[0]] + ReplaceById(ps[1..], updated)
  }

  /** The search `projects.find(p => p.id === id)` performs: the index of the first project with that id. */
  function FindIndex(ps: seq<Project>, id: string): (r: Option<nat>)
    ensures r.None? <==> forall i :: 0 <= i < |ps| ==> ps[i].id != id
    ensures r.Some? ==> r.value < |ps| && ps[r.value].id == id
    ensures r.Some? ==> forall j :: 0 <= j < r.value ==> ps[j].id != id
  {
    if ps == [] then None
    else if ps[0].id == id then Some(0)
    else match FindIndex(ps[1..], id)
      case None => None
      case Some(k) => Some(k + 1)
  }

  /**
   * `createNewProject(title, description)` with the signed-in `user` of the
   * same render; `id` and `now` are what `uuidv4()` and `new Date()` return.
   * Without a user nothing changes. Otherwise a project with no messages, no
   * code and the user's id is appended at the end and becomes current.
   */
  function CreateOn(s: ProjectState, user: Option<User>, title: string, description: string, id: string, now: Time): (r: ProjectState)
    ensures user.None? ==> r == s
    ensures user.Some? ==>
      && |r.projects| == |s.projects| + 1
      && r.projects[..|s.projects|] == s.projects
      && r.current == Some(r.projects[|s.projects|])
    ensures user.Some? ==>
      var p := r.current.value;
      && p.id == id && p.title == title && p.description == description
      && p.messages == [] && p.vbaCode.None? && p.userId == user.value.id
      && p.createdAt == now && p.updatedAt == now
  {
    if user.None? then s
    else
      var p := Project(id, title, description, now, now, [], None, user.value.id);
      ProjectState(s.projects + [p], Some(p))
  }

  /**
   * `addMessage(content, sender)`. Without a current project nothing changes.
   * Otherwise the current project gains exactly one message at the end, with
   * the given content and sender, its earlier messages and other fields are
   * kept (only `updatedAt` is refreshed), and every list entry with the
   * current project's id is replaced by it; the list keeps its length and
   * every other entry.
   */
  function AddMessageOn(s: ProjectState, content: Option<string>, sender: Sender, id: string, now: Time): (r: ProjectState)
    ensures s.current.None? ==> r == s
    ensures s.current.Some? ==>
      var before := s.current.value;
      && r.current.Some?
      && |r.current.value.messages| == |before.messages| + 1
      && r.current.value.messages[..|before.messages|] == before.messages
      && r.current.value.messages[|before.messages|] == Message(id, content, sender, now)
      && r.current.value == before.(messages := r.current.value.messages, updatedAt := now)
    ensures s.current.Some? ==>
      && |r.projects| == |s.projects|
      && forall i :: 0 <= i < |s.projects| ==>
           r.projects[i] == (if s.projects[i].id == s.current.value.id then r.current.value else s.projects[i])
  {
    match s.current
    case None => s
    case Some(p) =>
      var updated := p.(messages := p.messages + [Message(id, content, sender, now)], updatedAt := now);
      ProjectState(ReplaceById(s.projects, updated), Some(updated))
  }

  /**
   * `updateVbaCode(code)`. Without a current project nothing changes.
   * Otherwise the current project's code becomes `code` while its messages,
   * title, description, id and owner are kept, and the list entries are
   * replaced by id as in `AddMessageOn`.
   */
  function UpdateVbaCodeOn(s: ProjectState, code: Option<string>, now: Time): (r: ProjectState)
    ensures s.current.None? ==> r == s
    ensures s.current.Some? ==>
      var before := s.current.value;
      && r.current.Some?
      && r.current.value.vbaCode == code
      && r.current.value.messages == before.messages
      && r.current.value.title == before.title
      && r.current.value.description == before.description
      && r.current.value == before.(vbaCode := code, updatedAt := now)
    ensures s.current.Some? ==>
      && |r.projects| == |s.projects|
      && forall i :: 0 <= i < |s.projects| ==>
           r.projects[i] == (if s.projects[i].id == s.current.value.id then r.current.value else s.projects[i])
  {
    match s.current
    case None => s
    case Some(p) =>
      var updated := p.(vbaCode := code, updatedAt := now);
      ProjectState(ReplaceById(s.projects, updated), Some(updated))
  }

  /**
   * `selectProject(id)`: the first project with that id becomes current; an
   * id that is not in the list leaves the current project as it was. The
   * list itself is never touched.
   */
  function SelectOn(s: ProjectState, id: string): (r: ProjectState)
    ensures r.projects == s.projects
    ensures (forall i :: 0 <= i < |s.projects| ==> s.projects[i].id != id) ==> r.current == s.current
    ensures (exists i :: 0 <= i < |s.projects| && s.projects[i].id == id) ==>
      exists k :: 0 <= k < |s.projects| && r.current == Some(s.projects[k]) && s.projects[k].id == id &&
        forall j :: 0 <= j < k ==> s.projects[j].id != id
  {
    match FindIndex(s.projects, id)
    case None => s
    case Some(k) => s.(current := Some(s.projects[k]))
  }

  /**
   * Appending messages one after another, each call seeing the state the
   * previous one left (as separate events do): the arguments are
   * `(content, sender)` pairs, with one fresh id per call and one timestamp.
   */
  function AppendAll(s: ProjectState, items: seq<(Option<string>, Sender)>, ids: seq<string>, now: Time): ProjectState
    requires |ids| == |items|
    decreases |items|
  {
    if items == [] then s
    else AppendAll(AddMessageOn(s, items[0].0, items[0].1, ids[0], now), items[1..], ids[1..], now)
  }

  /**
   * Transcript order is call order: after a run of `addMessage` calls that
   * each see the latest state, the current project's messages are the old
   * ones followed by one message per call, in the order of the calls.
   */
  lemma {:induction false} AppendAllKeepsCallOrder(s: ProjectState, items: seq<(Option<string>, Sender)>, ids: seq<string>, now: Time)
    requires |ids| == |items|
    requires s.current.Some?
    decreases |items|
    ensures AppendAll(s, items, ids, now).current.Some?
    ensures AppendAll(s, items, ids, now).current.value.messages ==
      s.current.value.messages + seq(|items|, i requires 0 <= i < |items| => Message(ids[i], items[i].0, items[i].1, now))
  {
    var added := seq(|items|, i requires 0 <= i < |items| => Message(ids[i], items[i].0, items[i].1, now));
    if items != [] {
      var s1 := AddMessageOn(s, items[0].0, items[0].1, ids[0], now);
      AppendAllKeepsCallOrder(s1, items[1..], ids[1..], now);
      var rest := seq(|items| - 1, i requires 0 <= i < |items| - 1 => Message(ids[1..][i], items[1..][i].0, items[1..][i].1, now));
      assert s1.current.value.messages == s.current.value.messages + [added[0]];
      assert added == [added[0]] + rest;
    }
  }

  /** The live state of the provider. */
  class ProjectStore {
    var projects: seq<Project>
    var currentProject: Option<Project>

    function State(): ProjectState
      reads this
    {
      ProjectState(projects, currentProject)
    }

    constructor ()
      ensures projects == [] && currentProject == None
    {
      projects := [];
      currentProject := None;
    }

    /**
     * The `createNewProject` closure of the render that saw `snap` and `user`.
     * With a user it writes both fields; without one it returns early.
     */
    method CreateNewProject(snap: ProjectState, user: Option<User>, title: string, description: string, id: string, now: Time)
      modifies this
      ensures user.None? ==> State() == old(State())
      ensures user.Some? ==> State() == CreateOn(snap, user, title, description, id, now)
    {
      if user.None? {
        return;
      }
      var p := Project(id, title, description, now, now, [], None, user.value.id);
      projects := snap.projects + [p];
      currentProject := Some(p);
    }

    /** The `addMessage` closure of the render that saw `snap`. */
    method AddMessage(snap: ProjectState, content: Option<string>, sender: Sender, id: string, now: Time)
      modifies this
      ensures snap.current.None? ==> State() == old(State())
      ensures snap.current.Some? ==> State() == AddMessageOn(snap, content, sender, id, now)
    {
      if snap.current.None? {
        return;
      }
      var p := snap.current.value;
      var updated := p.(messages := p.messages + [Message(id, content, sender, now)], updatedAt := now);
      currentProject := Some(updated);
      projects := ReplaceById(snap.projects, updated);
    }

    /** The `updateVbaCode` closure of the render that saw `snap`. */
    method UpdateVbaCode(snap: ProjectState, code: Option<string>, now: Time)
      modifies this
      ensures snap.current.None? ==> State() == old(State())
      ensures snap.current.Some? ==> State() == UpdateVbaCodeOn(snap, code, now)
    {
      if snap.current.None? {
        return;
      }
      var updated := snap.current.value.(vbaCode := code, updatedAt := now);
      currentProject := Some(updated);
      projects := ReplaceById(snap.projects, updated);
    }

    /**
     * The `selectProject` closure of the render that saw `snap`: it writes
     * only the current project, and only when the id is found.
     */
    method SelectProject(snap: ProjectState, id: string)
      modifies this
      ensures projects == old(projects)
      ensures FindIndex(snap.projects, id).None? ==> currentProject == old(currentProject)
      ensures FindIndex(snap.projects, id).Some? ==> currentProject == SelectOn(snap, id).current
    {
      var k := FindIndex(snap.projects, id);
      if k.Some? {
        currentProject := Some(snap.projects[k.value]);
      }
    }
  }
}
