/**
 * The persisted application store: the items currently open in the
 * workflow, the discovery page's search text and filters, the workflow step
 * and the user's preferences. Each setter replaces one field. The
 * preferences are merged with one level of nesting for the e-mail flags.
 * Only a slice of the state is written to storage.
 */
module PlatformStore {
  import opened Common
  import opened Filters

  /** The open items; their timestamps are milliseconds since the epoch. */
  datatype Idea = Idea(id: string, content: string, category: Option<string>, tags: Option<seq<string>>, createdAt: int)

  datatype ScriptStatus = Draft | InProgress | Completed | Archived

  datatype Script = Script(
    id: string, title: string, content: string, status: ScriptStatus, version: int, wordCount: int,
    estimatedDuration: Option<int>, createdAt: int, updatedAt: int)

  datatype ProjectStatus = Planning | Filming | Editing | Published

  datatype Project = Project(
    id: string, title: string, description: Option<string>, scriptId: Option<string>, status: ProjectStatus,
    youtubeVideoId: Option<string>, createdAt: int, updatedAt: int)

  datatype WorkflowStep = DiscoveryStep | ScriptingStep | EditingStep | AnalyzeStep

  datatype EmailNotifications = EmailNotifications(performanceAlerts: bool, weeklySummary: bool, milestoneAchievements: bool)

  datatype Preferences = Preferences(autoSaveInterval: int, emailNotifications: EmailNotifications)

  /** The e-mail flags a caller supplies; `None` is an absent key. */
  datatype EmailPatch = EmailPatch(performanceAlerts: Option<bool>, weeklySummary: Option<bool>, milestoneAchievements: Option<bool>)

  /** The argument of `updatePreferences`. */
  datatype PreferencesPatch = PreferencesPatch(autoSaveInterval: Option<int>, emailNotifications: Option<EmailPatch>)

  const EmptyPatch := PreferencesPatch(None, None)

  /**
   * The store's data fields. The discovery filters start as an empty object,
   * which is `None` here.
   */
  datatype StoreState = StoreState(
    currentIdea: Option<Idea>,
    currentScript: Option<Script>,
    currentProject: Option<Project>,
    discoverySearch: string,
    discoveryFilters: Option<SearchFilters>,
    workflowStep: WorkflowStep,
    preferences: Preferences)

  const InitialPreferences := Preferences(30, EmailNotifications(true, true, true))

  const InitialState := StoreState(None, None, None, "", None, DiscoveryStep, InitialPreferences)

  /** The e-mail flags with the supplied ones laid over them. */
  function MergeEmail(e: EmailNotifications, patch: EmailPatch): (r: EmailNotifications)
    ensures r.performanceAlerts == patch.performanceAlerts.GetOr(e.performanceAlerts)
    ensures r.weeklySummary == patch.weeklySummary.GetOr(e.weeklySummary)
    ensures r.milestoneAchievements == patch.milestoneAchievements.GetOr(e.milestoneAchievements)
  {
    EmailNotifications(
      patch.performanceAlerts.GetOr(e.performanceAlerts),
      patch.weeklySummary.GetOr(e.weeklySummary),
      patch.milestoneAchievements.GetOr(e.milestoneAchievements))
  }

  /**
   * `updatePreferences(prefs)`: the supplied top-level fields replace the old
   * ones; the e-mail flags are merged flag by flag, and a missing e-mail
   * object merges nothing.
   */
  function MergePreferences(p: Preferences, patch: PreferencesPatch): (r: Preferences)
    ensures r.autoSaveInterval == patch.autoSaveInterval.GetOr(p.autoSaveInterval)
    ensures patch.emailNotifications.None? ==> r.emailNotifications == p.emailNotifications
    ensures patch.emailNotifications.Some? ==>
      r.emailNotifications == MergeEmail(p.emailNotifications, patch.emailNotifications.value)
  {
    Preferences(
      patch.autoSaveInterval.GetOr(p.autoSaveInterval),
      MergeEmail(p.emailNotifications, patch.emailNotifications.GetOr(EmailPatch(None, None, None))))
  }

  /** An empty update changes nothing. */
  lemma EmptyPatchIsIdentity(p: Preferences)
    ensures MergePreferences(p, EmptyPatch) == p
  {
  }

  /** Applying the same update twice is the same as applying it once. */
  lemma MergeIdempotent(p: Preferences, patch: PreferencesPatch)
    ensures MergePreferences(MergePreferences(p, patch), patch) == MergePreferences(p, patch)
  {
  }

  /** Flags the caller leaves out keep their values; supplied ones take the new value. */
  lemma SupplyingOneFlagKeepsTheOthers(p: Preferences, weekly: bool)
    ensures var r := MergePreferences(p, PreferencesPatch(None, Some(EmailPatch(None, Some(weekly), None))));
      && r.emailNotifications.weeklySummary == weekly
      && r.emailNotifications.performanceAlerts == p.emailNotifications.performanceAlerts
      && r.emailNotifications.milestoneAchievements == p.emailNotifications.milestoneAchievements
      && r.autoSaveInterval == p.autoSaveInterval
  {
  }

  /** The slice written to storage. */
  datatype Persisted = Persisted(
    discoverySearch: string,
    discoveryFilters: Option<SearchFilters>,
    preferences: Preferences,
    workflowStep: WorkflowStep)

  /** `partialize`. */
  function Partialize(s: StoreState): (p: Persisted)
    ensures p.discoverySearch == s.discoverySearch && p.discoveryFilters == s.discoveryFilters
    ensures p.preferences == s.preferences && p.workflowStep == s.workflowStep
  {
    Persisted(s.discoverySearch, s.discoveryFilters, s.preferences, s.workflowStep)
  }

  /** Loading a stored slice: its fields are laid over the state, the open items are kept. */
  function Rehydrate(s: StoreState, p: Persisted): (r: StoreState)
    ensures Partialize(r) == p
    ensures r.currentIdea == s.currentIdea && r.currentScript == s.currentScript && r.currentProject == s.currentProject
  {
    s.(discoverySearch := p.discoverySearch, discoveryFilters := p.discoveryFilters,
       preferences := p.preferences, workflowStep := p.workflowStep)
  }

  /** Storing and loading gives back the persisted fields and drops the open items. */
  lemma PersistRoundTrip(saved: StoreState)
    ensures Partialize(Rehydrate(InitialState, Partialize(saved))) == Partialize(saved)
    ensures Rehydrate(InitialState, Partialize(saved)).currentIdea.None?
    ensures Rehydrate(InitialState, Partialize(saved)).currentScript.None?
    ensures Rehydrate(InitialState, Partialize(saved)).currentProject.None?
  {
  }

  /** The open items never reach storage: states that differ only in them persist alike. */
  lemma OpenItemsAreNotPersisted(s: StoreState, idea: Option<Idea>, script: Option<Script>, project: Option<Project>)
    ensures Partialize(s.(currentIdea := idea, currentScript := script, currentProject := project)) == Partialize(s)
  {
  }

  class Store {
    var currentIdea: Option<Idea>
    var currentScript: Option<Script>
    var currentProject: Option<Project>
    var discoverySearch: string
    var discoveryFilters: Option<SearchFilters>
    var workflowStep: WorkflowStep
    var preferences: Preferences

    function State(): StoreState
      reads this
    {
      StoreState(currentIdea, currentScript, currentProject, discoverySearch, discoveryFilters, workflowStep, preferences)
    }

    constructor ()
      ensures State() == InitialState
    {
      currentIdea := None;
      currentScript := None;
      currentProject := None;
      discoverySearch := "";
      discoveryFilters := None;
      workflowStep := DiscoveryStep;
      preferences := InitialPreferences;
    }

    method SetCurrentIdea(idea: Option<Idea>)
      modifies this
      ensures State() == old(State()).(currentIdea := idea)
    {
      currentIdea := idea;
    }

    method SetCurrentScript(script: Option<Script>)
      modifies this
      ensures State() == old(State()).(currentScript := script)
    {
      currentScript := script;
    }

    method SetCurrentProject(project: Option<Project>)
      modifies this
      ensures State() == old(State()).(currentProject := project)
    {
      currentProject := project;
    }

    method SetDiscoverySearch(search: string)
      modifies this
      ensures State() == old(State()).(discoverySearch := search)
    {
      discoverySearch := search;
    }

    method SetDiscoveryFilters(filters: Option<SearchFilters>)
      modifies this
      ensures State() == old(State()).(discoveryFilters := filters)
    {
      discoveryFilters := filters;
    }

    method SetWorkflowStep(step: WorkflowStep)
      modifies this
      ensures State() == old(State()).(workflowStep := step)
    {
      workflowStep := step;
    }

    method UpdatePreferences(patch: PreferencesPatch)
      modifies this
      ensures State() == old(State()).(preferences := MergePreferences(old(preferences), patch))
    {
      preferences := MergePreferences(preferences, patch);
    }

    /** The slice `partialize` picks out of the current state. */
    function PersistedSlice(): (p: Persisted)
      reads this
      ensures p == Partialize(State())
    {
      Partialize(State())
    }
  }
}
