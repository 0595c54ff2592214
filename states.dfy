/**
 * The dialogue states of `BrandCreationStates`. A session is in one of these,
 * or in no state at all: that is where it starts and where it returns when
 * the dialogue finishes or is reset; no state of its own marks completion.
 */
module States {

  datatype BrandCreationState =
    | WaitingForContext          // the user is asked for a thought
    | WaitingForStyle            // a style is being chosen
    | WaitingForUsernameChoice   // the username keyboard is shown
    | WaitingForFormat           // the format options are shown
    | WaitingForAudience         // the audience options are shown
    | WaitingForValue            // the value options are shown

  /** The states in declaration order, which is the order of the dialogue. */
  const AllStates: seq<BrandCreationState> :=
    [WaitingForContext, WaitingForStyle, WaitingForUsernameChoice,
     WaitingForFormat, WaitingForAudience, WaitingForValue]

  /** The position of a state in the declaration. */
  function Ordinal(s: BrandCreationState): (n: nat)
    ensures n < |AllStates| && AllStates[n] == s
  {
    match s
    case WaitingForContext => 0
    case WaitingForStyle => 1
    case WaitingForUsernameChoice => 2
    case WaitingForFormat => 3
    case WaitingForAudience => 4
    case WaitingForValue => 5
  }

  /** Exactly six states are declared, each once, so an equality test on them is unambiguous. */
  lemma SixDistinctStates()
    ensures |AllStates| == 6
    ensures forall s: BrandCreationState :: s in AllStates
    ensures forall i, j :: 0 <= i < j < |AllStates| ==> AllStates[i] != AllStates[j]
  {
    forall s: BrandCreationState ensures s in AllStates {
      assert AllStates[Ordinal(s)] == s;
    }
  }

  /** The three states from which `repeat` regenerates options. */
  predicate IsStageState(s: BrandCreationState) {
    s == WaitingForFormat || s == WaitingForAudience || s == WaitingForValue
  }
}
