/** The application states and the table of transitions allowed between
    them (`AppState`, `StateTransition` in src/state_machine.py). */
module StateMachine {

  datatype AppState = Idle | Listening | Processing | Speaking | Error

  /** `StateTransition.ALLOWED_TRANSITIONS`. The table has an entry for every
      state, so the `.get(..., set())` default of the source never applies. */
  function AllowedTransitions(from: AppState): (r: set<AppState>)
  {
    match from
    case Idle => {Listening, Error}
    case Listening => {Processing, Error}
    case Processing => {Speaking, Error}
    case Speaking => {Listening, Processing, Error}
    case Error => {Idle, Listening}
  }

  /** `StateTransition.is_valid_transition`. */
  predicate IsValidTransition(from: AppState, to: AppState)
  {
    to in AllowedTransitions(from)
  }

  /** `StateTransition.get_allowed_transitions`: exactly the states the
      validity predicate accepts from `from`. */
  function GetAllowedTransitions(from: AppState): (r: set<AppState>)
    ensures forall t :: t in r <==> IsValidTransition(from, t)
    ensures r != {}
  {
    AllowedTransitions(from)
  }

  /** The two documented examples of is_valid_transition. */
  lemma DocExamples()
    ensures IsValidTransition(Idle, Listening)
    ensures !IsValidTransition(Idle, Speaking)
    ensures Listening in GetAllowedTransitions(Idle)
  {
  }

  /** No state may transition to itself. */
  lemma NoSelfTransition(s: AppState)
    ensures !IsValidTransition(s, s)
  {
  }

  /** Every state but Error may fail into Error; Error may only recover to
      Idle or Listening. */
  lemma ErrorTransitions(s: AppState, t: AppState)
    ensures s != Error ==> IsValidTransition(s, Error)
    ensures IsValidTransition(Error, t) <==> t == Idle || t == Listening
  {
  }

  /** A walk through the table: consecutive states are valid transitions. */
  ghost predicate IsPath(p: seq<AppState>)
  {
    |p| >= 1 && forall i :: 0 <= i < |p| - 1 ==> IsValidTransition(p[i], p[i + 1])
  }

  /** The walk Idle, Listening, Processing, Speaking, Error, and how far
      along it each state first appears. */
  function WalkFromIdle(): (p: seq<AppState>)
  {
    [Idle, Listening, Processing, Speaking, Error]
  }

  function StepsFromIdle(s: AppState): (n: nat)
  {
    match s
    case Idle => 0
    case Listening => 1
    case Processing => 2
    case Speaking => 3
    case Error => 4
  }

  /** Every state is reachable from Idle by valid transitions. */
  lemma EveryStateReachableFromIdle(s: AppState)
    ensures exists p :: IsPath(p) && p[0] == Idle && p[|p| - 1] == s
  {
    var p := WalkFromIdle()[..StepsFromIdle(s) + 1];
    assert IsPath(p) && p[0] == Idle && p[|p| - 1] == s;
  }
}
