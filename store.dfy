/**
 * The application store: one mutable record (session, project table,
 * current selection, chat log, two UI fields) and the actions that replace
 * its fields. Every action is a synchronous whole-state transition.
 *
 * The id generator and the clock are outside the model: `createProject`
 * and `addChatMessage` receive the freshly minted id and the current
 * instant as parameters.
 */
module AppStore {
  import opened Domain
  import Seqs

  /** The ids present in a project table. */
  function IdSet(ps: seq<Project>): set<string> {
    set p | p in ps :: p.id
  }

  /** No two entries of the table share an id. */
  predicate DistinctIds(ps: seq<Project>) {
    forall i, j :: 0 <= i < j < |ps| ==> ps[i].id != ps[j].id
  }

  /** The project `createProject` builds: no audio, no transcription, no content yet. */
  function NewProject(id: string, name: string, now: nat): Project {
    Project(id, name, None, None, [], [], now, now)
  }

  /** `projects.map(p => p.id === id ? { ...p, ...u, updatedAt: now } : p)`. */
  function UpdateById(ps: seq<Project>, id: string, u: ProjectPatch, now: nat): (r: seq<Project>)
    ensures |r| == |ps|
    ensures forall k :: 0 <= k < |ps| ==>
      r[k] == (if ps[k].id == id then Merge(ps[k], u, now) else ps[k])
    ensures forall k :: 0 <= k < |ps| ==> r[k].id == ps[k].id
  {
    if ps == [] then []
    else [if ps[0].id == id then Merge(ps[0], u, now) else ps[0]] + UpdateById(ps[1..], id, u, now)
  }

  /** `projects.filter(p => p.id !== id)`. */
  function RemoveById(ps: seq<Project>, id: string): (r: seq<Project>)
    ensures |r| <= |ps|
    ensures id !in IdSet(r)
    ensures forall p :: p in r ==> p in ps
    ensures forall p :: p in ps && p.id != id ==> p in r
  {
    Seqs.Filter(ps, (p: Project) => p.id != id)
  }

  lemma DistinctCons(x: Project, r: seq<Project>)
    ensures DistinctIds([x] + r) <==> x.id !in IdSet(r) && DistinctIds(r)
  {
    var s := [x] + r;
    if DistinctIds(s) {
      forall i, j | 0 <= i < j < |r| ensures r[i].id != r[j].id {
        assert r[i] == s[i + 1] && r[j] == s[j + 1];
      }
      forall p | p in r ensures p.id != x.id {
        var k :| 0 <= k < |r| && r[k] == p;
        assert s[0] == x && s[k + 1] == p;
        assert s[0].id != s[k + 1].id;
      }
    }
  }

  /** Appending a project whose id is fresh keeps the ids distinct. */
  lemma AppendFreshKeepsDistinct(ps: seq<Project>, p: Project)
    requires DistinctIds(ps) && p.id !in IdSet(ps)
    ensures DistinctIds(ps + [p])
  {
    var s := ps + [p];
    forall i, j | 0 <= i < j < |s| ensures s[i].id != s[j].id {
      if j == |ps| {
        assert s[i] in ps;
      }
    }
  }

  /** An update of an id the table does not hold leaves the table as it was. */
  lemma UpdateUnknownId(ps: seq<Project>, id: string, u: ProjectPatch, now: nat)
    requires id !in IdSet(ps)
    ensures UpdateById(ps, id, u, now) == ps
  {
    var r := UpdateById(ps, id, u, now);
    forall k | 0 <= k < |ps| ensures r[k] == ps[k] {
      assert ps[k] in ps;
    }
  }

  /** With distinct ids, an update rewrites exactly the one entry that holds the id. */
  lemma UpdateAtIndex(ps: seq<Project>, id: string, u: ProjectPatch, now: nat, k: nat)
    requires DistinctIds(ps) && k < |ps| && ps[k].id == id
    ensures UpdateById(ps, id, u, now) == ps[k := Merge(ps[k], u, now)]
  {
    var r, e := UpdateById(ps, id, u, now), ps[k := Merge(ps[k], u, now)];
    forall j | 0 <= j < |ps|
      ensures r[j] == e[j]
    {
      if j != k {
        assert ps[j].id != id by {
          if j < k { assert ps[j].id != ps[k].id; } else { assert ps[k].id != ps[j].id; }
        }
      }
    }
  }

  /** An update keeps the ids, so it keeps them distinct. */
  lemma UpdateKeepsDistinct(ps: seq<Project>, id: string, u: ProjectPatch, now: nat)
    requires DistinctIds(ps)
    ensures DistinctIds(UpdateById(ps, id, u, now))
    ensures IdSet(UpdateById(ps, id, u, now)) == IdSet(ps)
  {
    var r := UpdateById(ps, id, u, now);
    forall x | x in IdSet(r) ensures x in IdSet(ps) {
      var p :| p in r && p.id == x;
      var k :| 0 <= k < |r| && r[k] == p;
      assert ps[k] in ps;
    }
    forall x | x in IdSet(ps) ensures x in IdSet(r) {
      var p :| p in ps && p.id == x;
      var k :| 0 <= k < |ps| && ps[k] == p;
      assert r[k] in r;
    }
  }

  /**
   * A selection taken from the table stays in step with it: after the
   * update, the refreshed selection is again an entry of the table.
   */
  lemma UpdateKeepsSelection(ps: seq<Project>, cp: Project, id: string, u: ProjectPatch, now: nat)
    requires cp in ps
    ensures (if cp.id == id then Merge(cp, u, now) else cp) in UpdateById(ps, id, u, now)
  {
    var k :| 0 <= k < |ps| && ps[k] == cp;
    assert UpdateById(ps, id, u, now)[k] == (if cp.id == id then Merge(cp, u, now) else cp);
  }

  /**
   * The invariant the project table and the selection are meant to keep:
   * distinct ids, and a selection that is an entry of the table.
   */
  predicate ConsistentState(ps: seq<Project>, cp: Option<Project>) {
    DistinctIds(ps) && (cp.Some? ==> cp.value in ps)
  }

  /** The selection after `updateProject(id, u)`: merged when it has the id, kept otherwise. */
  function RefreshSelection(cp: Option<Project>, id: string, u: ProjectPatch, now: nat): Option<Project> {
    if cp.Some? && cp.value.id == id then Some(Merge(cp.value, u, now)) else cp
  }

  /** An update of the table and the matching refresh of the selection keep the invariant. */
  lemma UpdateKeepsConsistent(ps: seq<Project>, cp: Option<Project>, id: string, u: ProjectPatch, now: nat)
    requires ConsistentState(ps, cp)
    ensures ConsistentState(UpdateById(ps, id, u, now), RefreshSelection(cp, id, u, now))
  {
    UpdateKeepsDistinct(ps, id, u, now);
    if cp.Some? {
      UpdateKeepsSelection(ps, cp.value, id, u, now);
    }
  }

  /** Deleting an id the table does not hold leaves the table as it was. */
  lemma RemoveUnknownId(ps: seq<Project>, id: string)
    requires id !in IdSet(ps)
    ensures RemoveById(ps, id) == ps
  {
    Seqs.FilterKeepAll(ps, (p: Project) => p.id != id);
  }

  /** Deleting keeps the relative order of the remaining projects. */
  lemma RemoveKeepsOrder(ps: seq<Project>, id: string)
    ensures Seqs.IsSubsequence(RemoveById(ps, id), ps)
  {
    Seqs.FilterIsSubsequence(ps, (p: Project) => p.id != id);
  }

  /** Deleting distributes over concatenation of tables. */
  lemma RemoveAppend(a: seq<Project>, b: seq<Project>, id: string)
    ensures RemoveById(a + b, id) == RemoveById(a, id) + RemoveById(b, id)
  {
    Seqs.FilterAppend(a, b, (p: Project) => p.id != id);
  }

  /** With distinct ids, the entry at `k` is the only one holding its id. */
  lemma OnlyHolder(ps: seq<Project>, k: nat)
    requires DistinctIds(ps) && k < |ps|
    ensures ps[k].id !in IdSet(ps[..k]) && ps[k].id !in IdSet(ps[k + 1..])
  {
    forall p | p in ps[..k] ensures p.id != ps[k].id {
      var i :| 0 <= i < k && ps[..k][i] == p;
      assert ps[i] == p;
    }
    forall p | p in ps[k + 1..] ensures p.id != ps[k].id {
      var i :| 0 <= i < |ps| - k - 1 && ps[k + 1..][i] == p;
      assert ps[k + 1 + i] == p;
    }
  }

  /** With distinct ids, deleting removes exactly the one entry that holds the id. */
  lemma RemoveExactlyOne(ps: seq<Project>, id: string, k: nat)
    requires DistinctIds(ps) && k < |ps| && ps[k].id == id
    ensures RemoveById(ps, id) == ps[..k] + ps[k + 1..]
  {
    var a, b := ps[..k], ps[k + 1..];
    assert ps == a + ([ps[k]] + b);
    OnlyHolder(ps, k);
    RemoveUnknownId(a, id);
    RemoveUnknownId(b, id);
    RemoveAppend(a, [ps[k]] + b, id);
    RemoveAppend([ps[k]], b, id);
    assert RemoveById([ps[k]], id) == [];
    assert RemoveById(ps, id) == a + ([] + b);
    assert [] + b == b;
  }

  /** Deleting keeps the remaining ids distinct. */
  lemma {:induction false} RemoveKeepsDistinct(ps: seq<Project>, id: string)
    requires DistinctIds(ps)
    ensures DistinctIds(RemoveById(ps, id))
  {
    if ps != [] {
      var keep := (p: Project) => p.id != id;
      assert ps == [ps[0]] + ps[1..];
      DistinctCons(ps[0], ps[1..]);
      RemoveKeepsDistinct(ps[1..], id);
      var rest := RemoveById(ps[1..], id);
      assert Seqs.Filter(ps, keep) == (if keep(ps[0]) then [ps[0]] else []) + rest;
      if keep(ps[0]) {
        forall p | p in rest ensures p.id != ps[0].id {
          assert p in ps[1..];
        }
        DistinctCons(ps[0], rest);
      } else {
        assert [] + rest == rest;
      }
    }
  }

  class Store {
    var user: Option<User>
    var isAuthenticated: bool
    var projects: seq<Project>
    var currentProject: Option<Project>
    var chatMessages: seq<ChatMessage>
    var sidebarOpen: bool
    var currentView: View

    /** The store invariant, on the current table and selection. */
    ghost predicate Consistent()
      reads this
    {
      ConsistentState(projects, currentProject)
    }

    twostate predicate SameSession()
      reads this
    {
      user == old(user) && isAuthenticated == old(isAuthenticated)
    }

    twostate predicate SameProjects()
      reads this
    {
      projects == old(projects) && currentProject == old(currentProject)
    }

    twostate predicate SameChat()
      reads this
    {
      chatMessages == old(chatMessages)
    }

    twostate predicate SameUi()
      reads this
    {
      sidebarOpen == old(sidebarOpen) && currentView == old(currentView)
    }

    /** The initial state: logged out, nothing stored, sidebar open, transcription pane. */
    constructor ()
      ensures user == None && !isAuthenticated
      ensures projects == [] && currentProject == None
      ensures chatMessages == []
      ensures sidebarOpen && currentView == TranscriptionPane
      ensures Consistent()
    {
      user := None;
      isAuthenticated := false;
      projects := [];
      currentProject := None;
      chatMessages := [];
      sidebarOpen := true;
      currentView := TranscriptionPane;
    }

    /** Accepts any identity: no check is made on it. */
    method Login(u: User)
      modifies this
      ensures user == Some(u) && isAuthenticated
      ensures SameProjects() && SameChat() && SameUi()
    {
      user := Some(u);
      isAuthenticated := true;
    }

    /**
     * Ends the session and drops the selection; projects and chat survive.
     * The new state does not depend on the old session, so a second logout
     * changes nothing.
     */
    method Logout()
      modifies this
      ensures user == None && !isAuthenticated && currentProject == None
      ensures projects == old(projects)
      ensures SameChat() && SameUi()
      ensures old(DistinctIds(projects)) ==> Consistent()
      ensures old(user == None && !isAuthenticated && currentProject == None) ==> unchanged(this)
    {
      user := None;
      isAuthenticated := false;
      currentProject := None;
    }

    /** Appends a fresh project at the end of the table and selects it. */
    method CreateProject(name: string, id: string, now: nat)
      requires id !in IdSet(projects)
      modifies this
      ensures projects == old(projects) + [NewProject(id, name, now)]
      ensures currentProject == Some(NewProject(id, name, now))
      ensures IdSet(projects) == IdSet(old(projects)) + {id}
      ensures SameSession() && SameChat() && SameUi()
      ensures old(DistinctIds(projects)) ==> Consistent()
    {
      var p := NewProject(id, name, now);
      if DistinctIds(projects) {
        AppendFreshKeepsDistinct(projects, p);
      }
      projects := projects + [p];
      currentProject := Some(p);
    }

    /** Takes the caller's record as it is; the store does not look it up. */
    method SetCurrentProject(p: Project)
      modifies this
      ensures currentProject == Some(p)
      ensures projects == old(projects)
      ensures SameSession() && SameChat() && SameUi()
      ensures old(DistinctIds(projects)) && p in projects ==> Consistent()
    {
      currentProject := Some(p);
    }

    /**
     * Merges `u` onto every entry with this id and onto the selection when
     * the selection has this id, stamping both with `now`.
     */
    method UpdateProject(id: string, u: ProjectPatch, now: nat)
      modifies this
      ensures projects == UpdateById(old(projects), id, u, now)
      ensures currentProject ==
        if old(currentProject).Some? && old(currentProject).value.id == id
        then Some(Merge(old(currentProject).value, u, now))
        else old(currentProject)
      ensures id !in IdSet(old(projects)) ==> projects == old(projects)
      ensures SameSession() && SameChat() && SameUi()
      ensures old(Consistent()) ==> Consistent()
    {
      var ps, cp := projects, currentProject;
      if id !in IdSet(ps) {
        UpdateUnknownId(ps, id, u, now);
      }
      if ConsistentState(ps, cp) {
        UpdateKeepsConsistent(ps, cp, id, u, now);
      }
      projects, currentProject := UpdateById(ps, id, u, now), RefreshSelection(cp, id, u, now);
    }

    /** Drops every entry with this id, and the selection when it has this id. */
    method DeleteProject(id: string)
      modifies this
      ensures projects == RemoveById(old(projects), id)
      ensures currentProject ==
        if old(currentProject).Some? && old(currentProject).value.id == id
        then None
        else old(currentProject)
      ensures SameSession() && SameChat() && SameUi()
      ensures old(Consistent()) ==> Consistent()
      ensures id !in IdSet(old(projects)) && currentProject == old(currentProject) ==> unchanged(this)
    {
      var ps := projects;
      if id !in IdSet(ps) {
        RemoveUnknownId(ps, id);
      }
      if DistinctIds(ps) {
        RemoveKeepsDistinct(ps, id);
      }
      projects := RemoveById(ps, id);
      if currentProject.Some? && currentProject.value.id == id {
        currentProject := None;
      }
    }

    /** Appends one message at the end of the log. */
    method AddChatMessage(content: string, sender: Sender, id: string, now: nat)
      modifies this
      ensures chatMessages == old(chatMessages) + [ChatMessage(id, content, sender, now)]
      ensures SameSession() && SameProjects() && SameUi()
    {
      chatMessages := chatMessages + [ChatMessage(id, content, sender, now)];
    }

    method ClearChat()
      modifies this
      ensures chatMessages == []
      ensures SameSession() && SameProjects() && SameUi()
    {
      chatMessages := [];
    }

    method SetSidebarOpen(open: bool)
      modifies this
      ensures sidebarOpen == open && currentView == old(currentView)
      ensures SameSession() && SameProjects() && SameChat()
    {
      sidebarOpen := open;
    }

    method SetCurrentView(view: View)
      modifies this
      ensures currentView == view && sidebarOpen == old(sidebarOpen)
      ensures SameSession() && SameProjects() && SameChat()
    {
      currentView := view;
    }
  }

  /**
   * A client of the store: create a project, give it two flashcards, then
   * delete it, and check the state after each step from the contracts alone.
   */
  method CreateUpdateDeleteScenario(f1: Flashcard, f2: Flashcard)
    returns (created: Project, updated: Project, remaining: seq<Project>)
    ensures created == NewProject("p1", "Biology 101", 1)
    ensures updated == created.(flashcards := [f1, f2], updatedAt := 2)
    ensures remaining == []
  {
    var s := new Store();
    s.CreateProject("Biology 101", "p1", 1);
    assert |s.projects| == 1 && s.currentProject == Some(s.projects[0]);
    created := s.projects[0];

    s.UpdateProject("p1", EmptyPatch.(flashcards := Some([f1, f2])), 2);
    assert s.currentProject == Some(s.projects[0]);
    updated := s.projects[0];

    ghost var before := s.projects;
    s.DeleteProject("p1");
    RemoveExactlyOne(before, "p1", 0);
    assert s.currentProject == None;
    remaining := s.projects;
  }
}
