/**
 * The application state store: the initial snapshot and the pure reducer
 * `(AppState, AppAction) -> AppState` over the closed action set.
 */
module AppContext {
  import opened Types

  /**
   * The seven named actions.  `Unrecognized` stands for any other object a
   * JavaScript caller may dispatch; the reducer's default branch handles it.
   */
  datatype AppAction =
    | SetUser(user: User)
    | ClearUser
    | AddJob(job: Job)
    | UpdateJob(job: Job)
    | SetJobs(jobs: seq<Job>)
    | SetLoading(loading: bool)
    | SetError(error: Option<string>)
    | Unrecognized(tag: string)

  const InitialState: AppState := AppState(
    AuthState(None, false, false, None),
    JobState([], None, false, None),
    ChatState([], false, None))

  /** `auth.isAuthenticated` holds exactly when a user is signed in. */
  predicate AuthConsistent(s: AppState) {
    s.auth.isAuthenticated <==> s.auth.user.Some?
  }

  /** `jobs.map(job => job.id === p.id ? p : job)`. */
  function ReplaceById(jobs: seq<Job>, p: Job): (r: seq<Job>)
    ensures |r| == |jobs|
  {
    if jobs == [] then []
    else [if jobs[0].id == p.id then p else jobs[0]] + ReplaceById(jobs[1..], p)
  }

  function Reduce(state: AppState, action: AppAction): AppState {
    match action
    case SetUser(u) =>
      state.(auth := state.auth.(user := Some(u), isAuthenticated := true, error := None))
    case ClearUser =>
      state.(auth := state.auth.(user := None, isAuthenticated := false))
    case AddJob(j) =>
      state.(jobs := state.jobs.(jobs := [j] + state.jobs.jobs))
    case UpdateJob(p) =>
      state.(jobs := state.jobs.(jobs := ReplaceById(state.jobs.jobs, p)))
    case SetJobs(js) =>
      state.(jobs := state.jobs.(jobs := js))
    case SetLoading(b) =>
      state.(jobs := state.jobs.(isLoading := b))
    case SetError(e) =>
      state.(jobs := state.jobs.(error := e))
    case Unrecognized(_) =>
      state
  }

  /** Dispatching a sequence of actions in program order. */
  function ReduceAll(state: AppState, actions: seq<AppAction>): AppState
    decreases |actions|
  {
    if actions == [] then state else ReduceAll(Reduce(state, actions[0]), actions[1..])
  }

  lemma InitialStateIsEmpty()
    ensures InitialState.auth.user == None && !InitialState.auth.isAuthenticated
    ensures !InitialState.auth.isLoading && !InitialState.jobs.isLoading && !InitialState.chat.isLoading
    ensures InitialState.auth.error == None && InitialState.jobs.error == None && InitialState.chat.error == None
    ensures InitialState.jobs.jobs == [] && InitialState.jobs.currentJob == None
    ensures InitialState.chat.messages == []
    ensures AuthConsistent(InitialState)
  {
  }

  lemma SetUserEffect(s: AppState, u: User)
    ensures var r := Reduce(s, SetUser(u));
      && r.auth.user == Some(u) && r.auth.isAuthenticated && r.auth.error == None
      && r.auth.isLoading == s.auth.isLoading
      && r.jobs == s.jobs && r.chat == s.chat
  {
  }

  lemma ClearUserEffect(s: AppState)
    ensures var r := Reduce(s, ClearUser);
      && r.auth.user == None && !r.auth.isAuthenticated
      && r.auth.error == s.auth.error && r.auth.isLoading == s.auth.isLoading
      && r.jobs == s.jobs && r.chat == s.chat
  {
  }

  /** `ADD_JOB` prepends: newest first, the rest the old list in order. */
  lemma AddJobEffect(s: AppState, j: Job)
    ensures var r := Reduce(s, AddJob(j));
      && |r.jobs.jobs| == |s.jobs.jobs| + 1
      && r.jobs.jobs[0] == j && r.jobs.jobs[1..] == s.jobs.jobs
      && r.jobs.currentJob == s.jobs.currentJob && r.jobs.isLoading == s.jobs.isLoading
      && r.jobs.error == s.jobs.error
      && r.auth == s.auth && r.chat == s.chat
  {
  }

  lemma AddJobTwiceIsNewestFirst(s: AppState, j: Job, k: Job)
    ensures var r := ReduceAll(s, [AddJob(j), AddJob(k)]);
      r.jobs.jobs == [k, j] + s.jobs.jobs
  {
    var once := Reduce(s, AddJob(j));
    assert [AddJob(j), AddJob(k)][1..] == [AddJob(k)];
    assert ReduceAll(s, [AddJob(j), AddJob(k)]) == ReduceAll(once, [AddJob(k)]);
    assert ReduceAll(once, [AddJob(k)]) == ReduceAll(Reduce(once, AddJob(k)), []);
  }

  /** Each position holds the payload when its old id matches, else the old job. */
  lemma {:induction false} ReplaceByIdAt(jobs: seq<Job>, p: Job, i: int)
    requires 0 <= i < |jobs|
    ensures ReplaceById(jobs, p)[i] == if jobs[i].id == p.id then p else jobs[i]
  {
    if i > 0 {
      ReplaceByIdAt(jobs[1..], p, i - 1);
    }
  }

  /** When no id matches, `UPDATE_JOB` leaves the list unchanged. */
  lemma {:induction false} ReplaceByIdNoMatch(jobs: seq<Job>, p: Job)
    requires forall i :: 0 <= i < |jobs| ==> jobs[i].id != p.id
    ensures ReplaceById(jobs, p) == jobs
  {
    if jobs != [] {
      ReplaceByIdNoMatch(jobs[1..], p);
    }
  }

  /** Replaying the same `UPDATE_JOB` changes nothing more. */
  lemma {:induction false} ReplaceByIdIdempotent(jobs: seq<Job>, p: Job)
    ensures ReplaceById(ReplaceById(jobs, p), p) == ReplaceById(jobs, p)
  {
    if jobs != [] {
      ReplaceByIdIdempotent(jobs[1..], p);
      assert ReplaceById(jobs, p)[1..] == ReplaceById(jobs[1..], p);
    }
  }

  lemma UpdateJobEffect(s: AppState, p: Job)
    ensures var r := Reduce(s, UpdateJob(p));
      && |r.jobs.jobs| == |s.jobs.jobs|
      && (forall i :: 0 <= i < |s.jobs.jobs| ==>
            r.jobs.jobs[i] == if s.jobs.jobs[i].id == p.id then p else s.jobs.jobs[i])
      && ((forall i :: 0 <= i < |s.jobs.jobs| ==> s.jobs.jobs[i].id != p.id) ==> r.jobs.jobs == s.jobs.jobs)
      && Reduce(r, UpdateJob(p)) == r
      && r.jobs.currentJob == s.jobs.currentJob && r.jobs.isLoading == s.jobs.isLoading
      && r.jobs.error == s.jobs.error
      && r.auth == s.auth && r.chat == s.chat
  {
    forall i | 0 <= i < |s.jobs.jobs| {
      ReplaceByIdAt(s.jobs.jobs, p, i);
    }
    if forall i :: 0 <= i < |s.jobs.jobs| ==> s.jobs.jobs[i].id != p.id {
      ReplaceByIdNoMatch(s.jobs.jobs, p);
    }
    ReplaceByIdIdempotent(s.jobs.jobs, p);
  }

  lemma JobsBookkeepingEffects(s: AppState, js: seq<Job>, b: bool, e: Option<string>)
    ensures Reduce(s, SetJobs(js)) == s.(jobs := s.jobs.(jobs := js))
    ensures Reduce(s, SetLoading(b)) == s.(jobs := s.jobs.(isLoading := b))
    ensures Reduce(s, SetError(e)) == s.(jobs := s.jobs.(error := e))
  {
  }

  lemma UnrecognizedIsIdentity(s: AppState, tag: string)
    ensures Reduce(s, Unrecognized(tag)) == s
  {
  }

  /** Every action keeps the chat slice and the selected job as they were. */
  lemma ActionFrame(s: AppState, a: AppAction)
    ensures Reduce(s, a).chat == s.chat
    ensures Reduce(s, a).jobs.currentJob == s.jobs.currentJob
    ensures !(a.SetUser? || a.ClearUser?) ==> Reduce(s, a).auth == s.auth
  {
  }

  /** Every action preserves `isAuthenticated <==> user != null`. */
  lemma ActionPreservesAuthConsistent(s: AppState, a: AppAction)
    requires AuthConsistent(s)
    ensures AuthConsistent(Reduce(s, a))
  {
  }

  /** Any run of dispatches from the initial state keeps the auth invariant
      and never touches the chat slice or the selected job. */
  lemma {:induction false} RunPreservesInvariants(s: AppState, actions: seq<AppAction>)
    requires AuthConsistent(s)
    ensures AuthConsistent(ReduceAll(s, actions))
    ensures ReduceAll(s, actions).chat == s.chat
    ensures ReduceAll(s, actions).jobs.currentJob == s.jobs.currentJob
    decreases |actions|
  {
    if actions != [] {
      ActionPreservesAuthConsistent(s, actions[0]);
      ActionFrame(s, actions[0]);
      RunPreservesInvariants(Reduce(s, actions[0]), actions[1..]);
    }
  }

  lemma ReachableStatesAreConsistent(actions: seq<AppAction>)
    ensures AuthConsistent(ReduceAll(InitialState, actions))
    ensures ReduceAll(InitialState, actions).chat == InitialState.chat
    ensures ReduceAll(InitialState, actions).jobs.currentJob == None
  {
    RunPreservesInvariants(InitialState, actions);
  }
}
