/**
  The voice-command dispatcher shared by both `useVoiceCommands` hooks:
  a phrase table kept in definition order, and `processCommand`, which
  normalises the transcript, looks for an exact phrase, and otherwise takes
  the first phrase in table order related to the transcript by `includes`
  in either direction. The action found is returned instead of being run;
  `None` is the hook's `false` (nothing invoked).
*/
module Dispatch {
  import opened Wrappers
  import opened Text

  /** The DOM and history side effects a phrase can trigger. */
  datatype Effect =
    | HistoryBack | HistoryForward
    | ScrollToTop | ScrollToBottom | Reload
    | FontLarger | FontNormal
    | DarkModeOn | DarkModeOff

  /** A string value in the table (`router.push(path)`) or a function value (an effect). */
  datatype Action = Navigate(path: string) | Perform(effect: Effect)

  type Entry = (string, Action)

  /** `command.toLowerCase().trim()`. */
  function Normalise(command: string): (r: string)
    ensures IsLower(r) && IsTrimmed(r)
    ensures InnerSlice(r, Lower(command))
  {
    LowerIsLower(command);
    TrimSpec(Lower(command));
    TrimOfLowerIsLower(Lower(command));
    Trim(Lower(command))
  }

  lemma NormaliseIdempotent(command: string)
    ensures Normalise(Normalise(command)) == Normalise(command)
  {
    var c := Normalise(command);
    LowerOfLower(c);
    TrimOfTrimmed(c);
  }

  /** The predicate given to `find`: `key.includes(c) || c.includes(key)`. */
  predicate Related(key: string, c: string)
  {
    Contains(key, c) || Contains(c, key)
  }

  /** `cleanCommand in VOICE_COMMANDS`, resolved to the first entry whose phrase is `c`. */
  function ExactIndex(table: seq<Entry>, c: string): (r: Option<nat>)
    ensures r.Some? ==> r.value < |table| && table[r.value].0 == c
                        && forall j :: 0 <= j < r.value ==> table[j].0 != c
    ensures r.None? ==> forall j :: 0 <= j < |table| ==> table[j].0 != c
  {
    if table == [] then None
    else if table[0].0 == c then Some(0)
    else match ExactIndex(table[1..], c)
      case Some(i) => Some(i + 1)
      case None => None
  }

  /** `commandKeys.find(key => key.includes(c) || c.includes(key))`, as an index. */
  function RelatedIndex(table: seq<Entry>, c: string): (r: Option<nat>)
    ensures r.Some? ==> r.value < |table| && Related(table[r.value].0, c)
                        && forall j :: 0 <= j < r.value ==> !Related(table[j].0, c)
    ensures r.None? ==> forall j :: 0 <= j < |table| ==> !Related(table[j].0, c)
  {
    if table == [] then None
    else if Related(table[0].0, c) then Some(0)
    else match RelatedIndex(table[1..], c)
      case Some(i) => Some(i + 1)
      case None => None
  }

  /** The two lookups of `processCommand` on an already normalised command. */
  function Resolve(table: seq<Entry>, c: string): Option<Action>
  {
    match ExactIndex(table, c)
    case Some(i) => Some(table[i].1)
    case None =>
      match RelatedIndex(table, c)
      case Some(i) => Some(table[i].1)
      case None => None
  }

  /** `processCommand`: the action invoked, or `None` when it returns false. */
  function ProcessCommand(table: seq<Entry>, command: string): Option<Action>
  {
    Resolve(table, Normalise(command))
  }

  /** A lower-case, trimmed command is its own normal form. */
  lemma NormaliseOfClean(command: string)
    requires IsLower(command) && IsTrimmed(command)
    ensures Normalise(command) == command
  {
    LowerOfLower(command);
    TrimOfTrimmed(command);
  }

  /**
    A transcript that normalises to a phrase fires the action of that
    phrase's first entry, before any substring scan.
  */
  lemma ExactPhraseFires(table: seq<Entry>, command: string, i: nat)
    requires i < |table| && Normalise(command) == table[i].0
    requires forall j :: 0 <= j < i ==> table[j].0 != table[i].0
    ensures ExactIndex(table, Normalise(command)) == Some(i)
    ensures ProcessCommand(table, command) == Some(table[i].1)
  {
    ExactIndexIs(table, Normalise(command), i);
  }

  /** The exact lookup finds the first entry carrying the phrase. */
  lemma ExactIndexIs(table: seq<Entry>, c: string, i: nat)
    requires i < |table| && table[i].0 == c
    requires forall j :: 0 <= j < i ==> table[j].0 != c
    ensures ExactIndex(table, c) == Some(i)
  {
    match ExactIndex(table, c)
    case Some(e) =>
      assert e == i;
    case None =>
  }

  /** The scan finds the first entry whose phrase is related to the command. */
  lemma RelatedIndexIs(table: seq<Entry>, c: string, i: nat)
    requires i < |table| && Related(table[i].0, c)
    requires forall j :: 0 <= j < i ==> !Related(table[j].0, c)
    ensures RelatedIndex(table, c) == Some(i)
  {
    match RelatedIndex(table, c)
    case Some(e) =>
      assert e == i;
    case None =>
  }

  /** A command already in normal form that is a phrase fires that phrase's first entry. */
  lemma CleanPhraseFires(table: seq<Entry>, c: string)
    requires IsLower(c) && IsTrimmed(c) && ExactIndex(table, c).Some?
    ensures ProcessCommand(table, c) == Some(table[ExactIndex(table, c).value].1)
  {
    NormaliseOfClean(c);
  }

  /**
    Without an exact phrase, the action is that of the first phrase in table
    order related to the transcript.
  */
  lemma FallbackTakesFirstRelated(table: seq<Entry>, command: string, i: nat)
    requires i < |table|
    requires forall j :: 0 <= j < |table| ==> table[j].0 != Normalise(command)
    requires Related(table[i].0, Normalise(command))
    requires forall j :: 0 <= j < i ==> !Related(table[j].0, Normalise(command))
    ensures ProcessCommand(table, command) == Some(table[i].1)
  {
    RelatedIndexIs(table, Normalise(command), i);
  }

  /** `false` with nothing invoked exactly when no phrase relates to the transcript. */
  lemma UnmatchedIff(table: seq<Entry>, command: string)
    ensures ProcessCommand(table, command).None?
            <==> forall j :: 0 <= j < |table| ==> !Related(table[j].0, Normalise(command))
  {
    var c := Normalise(command);
    if ExactIndex(table, c).Some? {
      var i := ExactIndex(table, c).value;
      ContainsSelf(c);
      assert Related(table[i].0, c);
    }
  }

  /** Every action fired comes from the table. */
  lemma FiredActionInTable(table: seq<Entry>, command: string)
    requires ProcessCommand(table, command).Some?
    ensures exists i :: 0 <= i < |table| && table[i].1 == ProcessCommand(table, command).value
  {
    var c := Normalise(command);
    match ExactIndex(table, c)
    case Some(i) =>
      assert table[i].1 == ProcessCommand(table, command).value;
    case None =>
      var i := RelatedIndex(table, c).value;
      assert table[i].1 == ProcessCommand(table, command).value;
  }

  /** Normalising first changes nothing: "  VOLTAR " behaves as "voltar". */
  lemma NormalisedCommandSameOutcome(table: seq<Entry>, command: string)
    ensures ProcessCommand(table, Normalise(command)) == ProcessCommand(table, command)
  {
    NormaliseIdempotent(command);
  }

  /**
    A blank transcript normalises to "", which every phrase contains, so the
    first phrase fires (when "" is not itself a phrase).
  */
  lemma BlankFiresFirstPhrase(table: seq<Entry>, command: string)
    requires table != [] && forall j :: 0 <= j < |table| ==> table[j].0 != ""
    requires forall k :: 0 <= k < |command| ==> IsWhite(command[k])
    ensures ProcessCommand(table, command) == Some(table[0].1)
  {
    var lower := Lower(command);
    TrimSpec(lower);
    assert Normalise(command) == "";
    ContainsEmpty(table[0].0);
    FallbackTakesFirstRelated(table, command, 0);
  }
}
