/** The research screen (components/ResearchAndDevelopment.tsx): which
  * projects are offered, locked or done, when the start button is enabled,
  * what it says, and the progress bar of the running project. */
module ResearchPanel {
  import opened Common
  import opened Model
  import Commands
  import Lifecycle

  datatype CardStatus = Available | InProgress | Completed | Locked

  predicate IsCompleted(p: Player, project: ResearchProject) {
    project.id in p.completedResearch
  }

  /** The project is the one being researched (an absent active project
    * matches nothing). */
  predicate IsActive(p: Player, project: ResearchProject) {
    p.activeResearch.Some? && project.id == p.activeResearch.value.project.id
  }

  predicate PrerequisitesMet(p: Player, project: ResearchProject) {
    forall q :: q in project.prerequisites ==> q in p.completedResearch
  }

  predicate Offered(p: Player, project: ResearchProject) {
    !IsCompleted(p, project) && !IsActive(p, project) && PrerequisitesMet(p, project)
  }

  predicate Blocked(p: Player, project: ResearchProject) {
    !IsCompleted(p, project) && !IsActive(p, project) && !PrerequisitesMet(p, project)
  }

  function AvailableProjects(p: Player, projects: seq<ResearchProject>): seq<ResearchProject> {
    Filter(projects, (r: ResearchProject) => Offered(p, r))
  }

  function LockedProjects(p: Player, projects: seq<ResearchProject>): seq<ResearchProject> {
    Filter(projects, (r: ResearchProject) => Blocked(p, r))
  }

  function CompletedProjects(p: Player, projects: seq<ResearchProject>): seq<ResearchProject> {
    Filter(projects, (r: ResearchProject) => IsCompleted(p, r))
  }

  /** The three lists: a catalog project is available exactly when it is
    * neither completed nor active and every prerequisite is completed,
    * locked exactly when it is neither completed nor active and some
    * prerequisite is missing, and completed exactly when its id is recorded.
    * Every project that is neither completed nor active is in exactly one of
    * the first two lists, and no project is in two lists. */
  lemma ResearchPartition(p: Player, projects: seq<ResearchProject>, r: ResearchProject)
    requires r in projects
    ensures r in AvailableProjects(p, projects) <==>
              !IsCompleted(p, r) && !IsActive(p, r) && (forall q :: q in r.prerequisites ==> q in p.completedResearch)
    ensures r in LockedProjects(p, projects) <==>
              !IsCompleted(p, r) && !IsActive(p, r) && (exists q :: q in r.prerequisites && q !in p.completedResearch)
    ensures r in CompletedProjects(p, projects) <==> r.id in p.completedResearch
    ensures !IsCompleted(p, r) && !IsActive(p, r) ==>
              (r in AvailableProjects(p, projects) <==> r !in LockedProjects(p, projects))
    ensures !(r in AvailableProjects(p, projects) && r in CompletedProjects(p, projects))
    ensures !(r in LockedProjects(p, projects) && r in CompletedProjects(p, projects))
  {
  }

  /** The active project never appears in the available or locked lists. */
  lemma ActiveNotOffered(p: Player, projects: seq<ResearchProject>)
    requires p.activeResearch.Some?
    ensures forall r :: r in AvailableProjects(p, projects) ==> r.id != p.activeResearch.value.project.id
    ensures forall r :: r in LockedProjects(p, projects) ==> r.id != p.activeResearch.value.project.id
  {
  }

  // ---------------------------------------------------------------------
  // The card's button

  datatype ButtonLabel = StartResearch | NeedsPrerequisites | ResearchRunning | InsufficientFunds

  predicate CanAfford(cash: real, cost: real) { cash >= cost }

  /** The start button is disabled unless the card is available, the cash
    * covers the cost and no research is running. */
  function ButtonDisabled(status: CardStatus, cash: real, cost: real, researchActive: bool): (r: bool)
    ensures !r <==> status == Available && cash >= cost && !researchActive
  {
    status != Available || !CanAfford(cash, cost) || researchActive
  }

  /** The label, by priority: locked, then a running research (on an
    * available card), then missing funds (on an available card), else start. */
  function Label(status: CardStatus, cash: real, cost: real, researchActive: bool): (r: ButtonLabel)
    ensures status == Locked ==> r == NeedsPrerequisites
    ensures status == Available && researchActive ==> r == ResearchRunning
    ensures status == Available && !researchActive && cash < cost ==> r == InsufficientFunds
    ensures r == NeedsPrerequisites ==> status == Locked
    ensures r == ResearchRunning ==> status == Available && researchActive
    ensures r == InsufficientFunds ==> status == Available && !researchActive && cash < cost
  {
    if status == Locked then NeedsPrerequisites
    else if researchActive && status == Available then ResearchRunning
    else if !CanAfford(cash, cost) && status == Available then InsufficientFunds
    else StartResearch
  }

  /** The button is only drawn on available cards; there it invites the
    * player to start exactly when it is enabled. */
  lemma LabelMatchesButton(cash: real, cost: real, researchActive: bool)
    ensures Label(Available, cash, cost, researchActive) == StartResearch <==>
              !ButtonDisabled(Available, cash, cost, researchActive)
  {
  }

  /** Clicking an enabled button on an offered project starts it: the
    * command's own checks pass, the cost is paid and the project is active. */
  lemma EnabledButtonStarts(p: Player, projects: seq<ResearchProject>, r: ResearchProject, today: int)
    requires r in AvailableProjects(p, projects)
    requires !ButtonDisabled(Available, p.cash, r.cost, p.activeResearch.Some?)
    ensures Commands.StartResearch(p, r, today) ==
              p.(cash := p.cash - r.cost, activeResearch := Some(ActiveResearch(r, today)))
  {
  }

  // ---------------------------------------------------------------------
  // Progress of the running project

  /** The bar of the running project: the share of its duration elapsed. */
  function Progress(a: ActiveResearch, today: int): (r: real)
    requires a.project.durationDays > 0
    ensures r <= 100.0
    ensures today >= a.startDay ==> r >= 0.0
  {
    ElapsedPercent(a.startDay, a.project.durationDays, today)
  }

  /** The duration less the days elapsed, rounded up, never negative. */
  function RemainingDays(a: ActiveResearch, today: int): (r: int)
    ensures r >= 0
  {
    DaysLeft(a.project.durationDays as real - (today - a.startDay) as real)
  }

  /** The bar is full exactly when no day remains, and that is exactly the
    * day the daily tick completes the research. */
  lemma ProgressMatchesCompletion(p: Player, today: int)
    requires p.activeResearch.Some? && p.activeResearch.value.project.durationDays > 0
    ensures var a := p.activeResearch.value;
            (Progress(a, today) == 100.0 <==> RemainingDays(a, today) == 0) &&
            (RemainingDays(a, today) == 0 <==> Lifecycle.ResearchDue(p, today))
  {
    var a := p.activeResearch.value;
    var d := a.project.durationDays;
    assert d as real - (today - a.startDay) as real == (a.startDay + d - today) as real;
    FullWhenNoDaysLeft(a.startDay, d, today);
  }
}
