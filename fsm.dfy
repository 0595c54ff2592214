/**
 * The per-chat session of the dialogue (aiogram's `FSMContext`): an optional
 * state and a data dictionary. Handlers read the whole dictionary, merge new
 * entries into it, set the state, or clear both. The values the handlers
 * store are strings and lists of strings.
 */
module Fsm {
  import opened Wrappers
  import opened Py
  import opened States
  import opened Markup

  /** A stored value: a string or a list of strings. */
  datatype Value = Str(text: string) | List(items: seq<string>)

  /** The session at one moment. */
  datatype Snapshot = Snapshot(state: Option<BrandCreationState>, data: map<string, Value>)

  /** What a handler ends with: normally, or with an exception escaping it. */
  datatype Outcome = Completed | Raised(error: PyError)

  /**
   * The effect of one handler: the session afterwards, the messages sent to
   * the chat in order, the prompts sent to the model in order, and how it ended.
   */
  datatype Reaction = Reaction(after: Snapshot, sent: seq<Message>, prompts: seq<string>, outcome: Outcome)

  /** The session of a chat that has just started, and of one that was cleared. */
  const Empty: Snapshot := Snapshot(None, map[])

  const UserThoughtKey: string := "user_thought"
  const UsernameOptionsKey: string := "username_options"
  const UsernameKey: string := "username"
  const FormatOptionsKey: string := "format_options"
  const FormatChoiceKey: string := "format_choice"
  const AudienceOptionsKey: string := "audience_options"
  const AudienceChoiceKey: string := "audience_choice"
  const ValueOptionsKey: string := "value_options"
  const ValueChoiceKey: string := "value_choice"

  /** `data.get(key)`. */
  function Get(data: map<string, Value>, key: string): Option<Value> {
    if key in data then Some(data[key]) else None
  }

  /**
   * `data.get(key, [])` used as a list: a stored string counts as the list of
   * its characters, as `len` and indexing see it.
   */
  function Listed(data: map<string, Value>, key: string): (r: seq<string>)
    ensures key !in data ==> r == []
    ensures key in data && data[key].List? ==> r == data[key].items
  {
    if key !in data then []
    else match data[key]
      case List(items) => items
      case Str(t) => seq(|t|, i requires 0 <= i < |t| => [t[i]])
  }

  /** `f"{value}"`: `None` for a missing key, a list in Python's list notation. */
  function Show(v: Option<Value>): string {
    match v
    case None => "None"
    case Some(Str(t)) => t
    case Some(List(items)) => "[" + Quoted(items) + "]"
  }

  /** The items of a list, quoted and separated by commas. */
  function Quoted(items: seq<string>): string {
    if items == [] then ""
    else if |items| == 1 then "'" + items[0] + "'"
    else "'" + items[0] + "', " + Quoted(items[1..])
  }

  /** The key is stored, with a string. */
  predicate HasStr(data: map<string, Value>, key: string) {
    key in data && data[key].Str?
  }

  /** The key is stored, with a list. */
  predicate HasList(data: map<string, Value>, key: string) {
    key in data && data[key].List?
  }

  /** If the key is stored, it holds a string. */
  predicate StrIfAny(data: map<string, Value>, key: string) {
    key in data ==> data[key].Str?
  }

  /** If the key is stored, it holds a list. */
  predicate ListIfAny(data: map<string, Value>, key: string) {
    key in data ==> data[key].List?
  }

  /** Every key the handlers use holds the kind of value they store under it. */
  predicate Typed(data: map<string, Value>) {
    && StrIfAny(data, UserThoughtKey) && ListIfAny(data, UsernameOptionsKey) && StrIfAny(data, UsernameKey)
    && ListIfAny(data, FormatOptionsKey) && StrIfAny(data, FormatChoiceKey)
    && ListIfAny(data, AudienceOptionsKey) && StrIfAny(data, AudienceChoiceKey)
    && ListIfAny(data, ValueOptionsKey) && StrIfAny(data, ValueChoiceKey)
  }

  /** What the handlers have stored before they store a stage's options or choice. */
  predicate ChoicesBefore(data: map<string, Value>) {
    && (FormatOptionsKey in data ==> HasStr(data, UsernameKey))
    && (FormatChoiceKey in data ==> HasStr(data, UsernameKey))
    && (AudienceOptionsKey in data ==> HasStr(data, FormatChoiceKey) && HasStr(data, UsernameKey))
    && (AudienceChoiceKey in data ==> HasStr(data, FormatChoiceKey) && HasStr(data, UsernameKey))
    && (ValueOptionsKey in data ==> HasStr(data, AudienceChoiceKey) && HasStr(data, FormatChoiceKey) && HasStr(data, UsernameKey))
  }

  /** A session waiting for a choice has the options it offered. */
  predicate OptionsWhileWaiting(s: Snapshot) {
    && (s.state == Some(WaitingForUsernameChoice) ==> HasList(s.data, UsernameOptionsKey))
    && (s.state == Some(WaitingForFormat) ==> HasList(s.data, FormatOptionsKey))
    && (s.state == Some(WaitingForAudience) ==> HasList(s.data, AudienceOptionsKey))
    && (s.state == Some(WaitingForValue) ==> HasList(s.data, ValueOptionsKey))
  }

  /** The dialogue invariant: what every handler keeps. */
  predicate WellFormed(s: Snapshot) {
    Typed(s.data) && ChoicesBefore(s.data) && OptionsWhileWaiting(s)
  }

  /** A new or cleared session satisfies the invariant. */
  lemma EmptyIsWellFormed()
    ensures WellFormed(Empty)
  {
  }

  /** The session storage of one chat. */
  class Session {
    var state: Option<BrandCreationState>
    var data: map<string, Value>

    /** A chat starts in no state, with no data. */
    constructor()
      ensures state == None && data == map[]
    {
      state := None;
      data := map[];
    }

    /** The session as a value. */
    function Current(): Snapshot
      reads this
    {
      Snapshot(state, data)
    }

    /** `state.update_data(key=value)`: merges one entry into the data. */
    method UpdateData(key: string, value: Value)
      modifies this
      ensures state == old(state) && data == old(data)[key := value]
    {
      data := data[key := value];
    }

    /** `state.set_state(s)`. */
    method SetState(s: Option<BrandCreationState>)
      modifies this
      ensures state == s && data == old(data)
    {
      state := s;
    }

    /** `state.clear()`: no state and no data. */
    method Clear()
      modifies this
      ensures state == None && data == map[]
    {
      state := None;
      data := map[];
    }
  }
}
