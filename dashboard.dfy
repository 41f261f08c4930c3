/**
 * The two dashboards (the classic page and the alternative layout): project
 * creation and deletion behind the name check and the confirmation, the
 * search filter, the first three entries of the filtered table (shown under
 * the heading of recent projects), the count statistics and the greeting. Both pages run the same handlers and the same reductions.
 */
module Dashboard {
  import opened Domain
  import AppStore
  import Seqs
  import Text

  /** The search rule: the lower-cased name contains the lower-cased query. */
  predicate Matches(p: Project, query: string) {
    Text.Contains(Text.Lower(p.name), Text.Lower(query))
  }

  /** `projects.filter(...)` with the search rule, in table order. */
  function FilteredProjects(ps: seq<Project>, query: string): (r: seq<Project>)
    ensures forall p :: p in r ==> p in ps && Matches(p, query)
    ensures forall p :: p in ps && Matches(p, query) ==> p in r
  {
    Seqs.Filter(ps, (p: Project) => Matches(p, query))
  }

  /** The filter keeps the table order. */
  lemma FilteredKeepsOrder(ps: seq<Project>, query: string)
    ensures Seqs.IsSubsequence(FilteredProjects(ps, query), ps)
  {
    Seqs.FilterIsSubsequence(ps, (p: Project) => Matches(p, query));
  }

  /** An empty search box shows every project. */
  lemma EmptyQueryKeepsAll(ps: seq<Project>)
    ensures FilteredProjects(ps, "") == ps
  {
    forall p | p in ps ensures Matches(p, "") {
      Text.ContainsEmpty(Text.Lower(p.name));
    }
    Seqs.FilterKeepAll(ps, (p: Project) => Matches(p, ""));
  }

  /** `filteredProjects.slice(0, 3)`: the recent list and the search drop-down. */
  function RecentProjects(ps: seq<Project>, query: string): (r: seq<Project>)
    ensures |r| == (if |FilteredProjects(ps, query)| < 3 then |FilteredProjects(ps, query)| else 3)
    ensures r == FilteredProjects(ps, query)[..|r|]
    ensures forall p :: p in r ==> p in ps && Matches(p, query)
  {
    var f := FilteredProjects(ps, query);
    var r := Seqs.Take(f, 3);
    assert r == f[..|r|];
    assert forall p :: p in r ==> p in f;
    r
  }

  /**
   * The list headed "Projets récents" is the head of the table, and the
   * table grows at its end: once three projects exist, a newly created one
   * is not among those shown.
   */
  lemma RecentOmitsNewest(ps: seq<Project>, id: string, name: string, now: nat)
    requires |ps| >= 3 && id !in AppStore.IdSet(ps)
    ensures AppStore.NewProject(id, name, now) !in RecentProjects(ps + [AppStore.NewProject(id, name, now)], "")
  {
    var p := AppStore.NewProject(id, name, now);
    EmptyQueryKeepsAll(ps + [p]);
    var r := RecentProjects(ps + [p], "");
    assert r == ps[..3];
    assert forall q :: q in r ==> q in ps && q.id in AppStore.IdSet(ps);
  }

  /** The last three entries of the filtered table, newest first: the list the heading describes. */
  function LatestProjects(ps: seq<Project>, query: string): (r: seq<Project>)
    ensures var f := FilteredProjects(ps, query);
      && |r| == (if |f| < 3 then |f| else 3)
      && forall i :: 0 <= i < |r| ==> r[i] == f[|f| - 1 - i]
    ensures forall p :: p in r ==> p in ps && Matches(p, query)
  {
    var f := FilteredProjects(ps, query);
    var k := if |f| < 3 then |f| else 3;
    var r := seq(k, i requires 0 <= i < k => f[|f| - 1 - i]);
    assert forall p :: p in r ==> p in f;
    r
  }

  /** A project just added at the end of the table heads the latest list whenever it matches the search. */
  lemma NewestIsShown(ps: seq<Project>, p: Project, query: string)
    requires Matches(p, query)
    ensures |LatestProjects(ps + [p], query)| > 0 && LatestProjects(ps + [p], query)[0] == p
  {
    var keep := (q: Project) => Matches(q, query);
    Seqs.FilterAppend(ps, [p], keep);
    assert [p][1..] == [];
    assert Seqs.Filter([p], keep) == [p];
  }

  /** Sum of `project.flashcards.length` over the table. */
  function FlashcardTotal(ps: seq<Project>): nat {
    if ps == [] then 0 else |ps[0].flashcards| + FlashcardTotal(ps[1..])
  }

  /** Sum of `project.quizzes.length` over the table. */
  function QuizTotal(ps: seq<Project>): nat {
    if ps == [] then 0 else |ps[0].quizzes| + QuizTotal(ps[1..])
  }

  /** `quizzes.filter(q => q.completedAt).length`. */
  function CompletedCount(qs: seq<Quiz>): (c: nat)
    ensures c <= |qs|
  {
    |Seqs.Filter(qs, (q: Quiz) => q.completedAt.Some?)|
  }

  /** Sum of the completed counts over the table. */
  function CompletedTotal(ps: seq<Project>): nat {
    if ps == [] then 0 else CompletedCount(ps[0].quizzes) + CompletedTotal(ps[1..])
  }

  /** No more quizzes are completed than exist. */
  lemma {:induction false} CompletedAtMostQuizzes(ps: seq<Project>)
    ensures CompletedTotal(ps) <= QuizTotal(ps)
  {
    if ps != [] {
      CompletedAtMostQuizzes(ps[1..]);
    }
  }

  /** The three totals add up over a split of the table. */
  lemma {:induction false} TotalsAppend(a: seq<Project>, b: seq<Project>)
    ensures FlashcardTotal(a + b) == FlashcardTotal(a) + FlashcardTotal(b)
    ensures QuizTotal(a + b) == QuizTotal(a) + QuizTotal(b)
    ensures CompletedTotal(a + b) == CompletedTotal(a) + CompletedTotal(b)
  {
    if a == [] {
      assert a + b == b;
    } else {
      assert (a + b)[0] == a[0];
      assert (a + b)[1..] == a[1..] + b;
      TotalsAppend(a[1..], b);
    }
  }

  /** The figures of the statistics cards. */
  datatype Stats = Stats(projects: nat, flashcards: nat, quizzes: nat, completed: nat)

  function DashboardStats(ps: seq<Project>): (s: Stats)
    ensures s.projects == |ps|
    ensures s.completed <= s.quizzes
    ensures ps == [] ==> s == Stats(0, 0, 0, 0)
  {
    CompletedAtMostQuizzes(ps);
    Stats(|ps|, FlashcardTotal(ps), QuizTotal(ps), CompletedTotal(ps))
  }

  /** A new project adds one to the project count and nothing to the other figures. */
  lemma StatsAfterCreate(ps: seq<Project>, id: string, name: string, now: nat)
    ensures var s, t := DashboardStats(ps), DashboardStats(ps + [AppStore.NewProject(id, name, now)]);
      t == s.(projects := s.projects + 1)
  {
    var p := AppStore.NewProject(id, name, now);
    TotalsAppend(ps, [p]);
    assert [p][1..] == [];
  }

  /** Deleting a project (ids distinct) takes away exactly its own content from the figures. */
  lemma StatsAfterDelete(ps: seq<Project>, k: nat)
    requires AppStore.DistinctIds(ps) && k < |ps|
    ensures var s, t := DashboardStats(ps), DashboardStats(AppStore.RemoveById(ps, ps[k].id));
      && t.projects == s.projects - 1
      && t.flashcards == s.flashcards - |ps[k].flashcards|
      && t.quizzes == s.quizzes - |ps[k].quizzes|
      && t.completed == s.completed - CompletedCount(ps[k].quizzes)
  {
    AppStore.RemoveExactlyOne(ps, ps[k].id, k);
    assert ps == ps[..k] + ([ps[k]] + ps[k + 1..]);
    TotalsAppend(ps[..k], [ps[k]] + ps[k + 1..]);
    TotalsAppend([ps[k]], ps[k + 1..]);
    TotalsAppend(ps[..k], ps[k + 1..]);
    assert [ps[k]][1..] == [];
  }

  /** `user?.name?.split(' ')[0]`: the first word of the user's name, nothing without a user. */
  function Greeting(user: Option<User>): (r: Option<string>)
    ensures r.Some? <==> user.Some?
    ensures r.Some? ==> ' ' !in r.value && |r.value| <= |user.value.name| && r.value == user.value.name[..|r.value|]
    ensures r.Some? && |r.value| < |user.value.name| ==> user.value.name[|r.value|] == ' '
  {
    match user
    case None => None
    case Some(u) => Some(Text.FirstWord(u.name))
  }

  /** The local state a dashboard keeps next to the store: the name input and the dialog. */
  class DashboardPage {
    var newProjectName: string
    var isCreateDialogOpen: bool

    constructor ()
      ensures newProjectName == "" && !isCreateDialogOpen
    {
      newProjectName := "";
      isCreateDialogOpen := false;
    }

    method EditName(name: string)
      modifies this
      ensures newProjectName == name && isCreateDialogOpen == old(isCreateDialogOpen)
    {
      newProjectName := name;
    }

    method SetDialogOpen(open: bool)
      modifies this
      ensures isCreateDialogOpen == open && newProjectName == old(newProjectName)
    {
      isCreateDialogOpen := open;
    }

    /**
     * `handleCreateProject`: a name that is blank once trimmed is refused
     * and nothing changes; otherwise the trimmed name is created (and
     * selected) through the store, the input is cleared and the dialog closed.
     */
    method HandleCreateProject(store: AppStore.Store, id: string, now: nat) returns (created: bool)
      requires id !in AppStore.IdSet(store.projects)
      modifies this, store
      ensures created <==> Text.Trim(old(newProjectName)) != []
      ensures !created ==> unchanged(this) && unchanged(store)
      ensures created ==>
        var p := AppStore.NewProject(id, Text.Trim(old(newProjectName)), now);
        && store.projects == old(store.projects) + [p]
        && store.currentProject == Some(p)
        && newProjectName == "" && !isCreateDialogOpen
      ensures store.SameSession() && store.SameChat() && store.SameUi()
      ensures old(store.Consistent()) ==> store.Consistent()
      ensures created && old(AppStore.DistinctIds(store.projects)) ==> store.Consistent()
    {
      var name := Text.Trim(newProjectName);
      if name == [] {
        return false;
      }
      store.CreateProject(name, id, now);
      newProjectName := "";
      isCreateDialogOpen := false;
      created := true;
    }

    /** `handleDeleteProject`: the store deletes only once the user has confirmed. */
    method HandleDeleteProject(store: AppStore.Store, id: string, confirmed: bool)
      modifies store
      ensures !confirmed ==> unchanged(store)
      ensures confirmed ==>
        && store.projects == AppStore.RemoveById(old(store.projects), id)
        && store.currentProject ==
             if old(store.currentProject).Some? && old(store.currentProject).value.id == id
             then None else old(store.currentProject)
      ensures store.SameSession() && store.SameChat() && store.SameUi()
      ensures old(store.Consistent()) ==> store.Consistent()
    {
      if confirmed {
        store.DeleteProject(id);
      }
    }
  }
}
