/**
 * The typewriter screen: on every change of the text box it compares the new text with
 * the previous one BY LENGTH ONLY. A longer text logs its tail beyond the old length as
 * "added", a shorter one logs the single old character at the new length as "deleted",
 * and a text of equal length logs nothing. The log is newest first and holds at most 20
 * entries. The formatted time of a change is the parameter `timestamp`.
 */
module KeyTracker {

  import opened Wrappers
  import opened BoundedLog

  const KEY_LOG_CAP: nat := 20

  datatype KeyAction = Added | Deleted

  datatype KeyLog = KeyLog(key: string, timestamp: string, action: KeyAction)

  datatype TypewriterState = TypewriterState(text: string, previousText: string, keyLogs: seq<KeyLog>)

  /**
   * `s.slice(start, end)` for non-negative bounds: both bounds are clamped to the length,
   * and the result is empty when the clamped end does not lie after the clamped start.
   */
  function Slice(s: string, start: nat, end: nat): (r: string)
    ensures start <= end <= |s| ==> r == s[start..end]
    ensures |s| <= start || end <= start ==> r == ""
    ensures |r| <= |s|
  {
    var from, to := Min(start, |s|), Min(end, |s|);
    if from < to then s[from..to] else ""
  }

  /** `a || fallback` on strings: the empty string is the only falsy one. */
  function Or(a: string, fallback: string): string
  {
    if a != "" then a else fallback
  }

  /** The key logged for a longer text: `newText.slice(previousText.length) || "space"`. */
  function AddedKey(previousText: string, newText: string): string
  {
    Or(Slice(newText, |previousText|, |newText|), "space")
  }

  /** The key logged for a shorter text: `previousText.slice(n, n + 1) || "backspace"`, n the new length. */
  function DeletedKey(previousText: string, newText: string): string
  {
    Or(Slice(previousText, |newText|, |newText| + 1), "backspace")
  }

  /**
   * The entry a text change logs, if any. The fallbacks "space" and "backspace" never
   * apply: in the branch that uses them the slice is never empty.
   */
  function KeyEntry(previousText: string, newText: string, timestamp: string): (r: Option<KeyLog>)
    ensures r.None? <==> |newText| == |previousText|
    ensures |newText| > |previousText| ==> r == Some(KeyLog(newText[|previousText|..], timestamp, Added))
    ensures |newText| < |previousText| ==> r == Some(KeyLog([previousText[|newText|]], timestamp, Deleted))
  {
    if |newText| > |previousText| then
      var added := Slice(newText, |previousText|, |newText|);
      assert added == newText[|previousText|..] != "";
      Some(KeyLog(AddedKey(previousText, newText), timestamp, Added))
    else if |newText| < |previousText| then
      var deleted := Slice(previousText, |newText|, |newText| + 1);
      assert deleted == previousText[|newText|..|newText| + 1] == [previousText[|newText|]];
      Some(KeyLog(DeletedKey(previousText, newText), timestamp, Deleted))
    else
      None
  }

  /** The state after `handleTextChange(newText)`. */
  function TextChange(s: TypewriterState, newText: string, timestamp: string): (r: TypewriterState)
    ensures r.text == newText && r.previousText == newText
    ensures |newText| == |s.previousText| ==> r.keyLogs == s.keyLogs
    ensures |newText| != |s.previousText| ==>
              && |r.keyLogs| == Min(|s.keyLogs| + 1, KEY_LOG_CAP)
              && Some(r.keyLogs[0]) == KeyEntry(s.previousText, newText, timestamp)
              && r.keyLogs[1..] == s.keyLogs[..|r.keyLogs| - 1]
  {
    var entry := KeyEntry(s.previousText, newText, timestamp);
    TypewriterState(newText, newText, if entry.Some? then Prepend(entry.value, s.keyLogs, KEY_LOG_CAP) else s.keyLogs)
  }

  /** The state after "Clear All". */
  function AllCleared(s: TypewriterState): (r: TypewriterState)
    ensures r.text == "" && r.previousText == "" && r.keyLogs == []
  {
    TypewriterState("", "", [])
  }

  /** The state after "Clear Logs": only the log is emptied. */
  function LogsCleared(s: TypewriterState): (r: TypewriterState)
    ensures r.keyLogs == []
    ensures r.text == s.text && r.previousText == s.previousText
  {
    s.(keyLogs := [])
  }

  /** What holds of every state the screen can reach from its initial state. */
  predicate Consistent(s: TypewriterState)
  {
    && s.text == s.previousText
    && |s.keyLogs| <= KEY_LOG_CAP
    && (forall i :: 0 <= i < |s.keyLogs| ==> s.keyLogs[i].key != "")
    && (forall i :: 0 <= i < |s.keyLogs| && s.keyLogs[i].action == Deleted ==> |s.keyLogs[i].key| == 1)
  }

  function Initial(): (r: TypewriterState)
    ensures r.text == "" && r.previousText == "" && r.keyLogs == []
    ensures Consistent(r)
  {
    TypewriterState("", "", [])
  }

  /** One user action on the screen. */
  datatype KeyEvent =
    | TextInput(newText: string, timestamp: string)
    | ClearAllPress
    | ClearLogsPress

  function Step(s: TypewriterState, e: KeyEvent): TypewriterState
  {
    match e
    case TextInput(newText, timestamp) => TextChange(s, newText, timestamp)
    case ClearAllPress => AllCleared(s)
    case ClearLogsPress => LogsCleared(s)
  }

  function Run(s: TypewriterState, events: seq<KeyEvent>): TypewriterState
    decreases |events|
  {
    if events == [] then s else Run(Step(s, events[0]), events[1..])
  }

  lemma StepKeepsConsistent(s: TypewriterState, e: KeyEvent)
    requires Consistent(s)
    ensures Consistent(Step(s, e))
  {
    var r := Step(s, e);
    if e.TextInput? && |e.newText| != |s.previousText| {
      forall i | 0 <= i < |r.keyLogs|
        ensures r.keyLogs[i].key != ""
        ensures r.keyLogs[i].action == Deleted ==> |r.keyLogs[i].key| == 1
      {
        if i > 0 {
          assert r.keyLogs[i] == s.keyLogs[i - 1];
        }
      }
    }
  }

  /** Every state reached from a consistent one, in particular from the initial state, is consistent. */
  lemma {:induction false} RunKeepsConsistent(s: TypewriterState, events: seq<KeyEvent>)
    requires Consistent(s)
    ensures Consistent(Run(s, events))
    decreases |events|
  {
    if events != [] {
      StepKeepsConsistent(s, events[0]);
      RunKeepsConsistent(Step(s, events[0]), events[1..]);
    }
  }

  /**
   * The text changes seen when `word` is typed one character at a time after `text`,
   * keystroke i carrying the formatted time `timestamps[i]`.
   */
  function Typing(text: string, word: string, timestamps: seq<string>): seq<KeyEvent>
    requires |timestamps| == |word|
    decreases |word|
  {
    if word == [] then []
    else [TextInput(text + [word[0]], timestamps[0])] + Typing(text + [word[0]], word[1..], timestamps[1..])
  }

  /** One "added" entry per character of `word`, in typing order, each with its own time. */
  function AddedLogs(word: string, timestamps: seq<string>): seq<KeyLog>
    requires |timestamps| == |word|
    decreases |word|
  {
    if word == [] then [] else [KeyLog([word[0]], timestamps[0], Added)] + AddedLogs(word[1..], timestamps[1..])
  }

  /** Appending one character to a consistent text logs exactly that character as "added". */
  lemma TypeOneCharacter(s: TypewriterState, c: char, timestamp: string)
    requires s.text == s.previousText
    ensures Step(s, TextInput(s.text + [c], timestamp))
         == TypewriterState(s.text + [c], s.text + [c], Prepend(KeyLog([c], timestamp, Added), s.keyLogs, KEY_LOG_CAP))
  {
    assert (s.text + [c])[|s.previousText|..] == [c];
  }

  lemma TypingUnfolds(s: TypewriterState, word: string, timestamps: seq<string>)
    requires word != [] && |timestamps| == |word|
    ensures Run(s, Typing(s.text, word, timestamps))
         == Run(Step(s, TextInput(s.text + [word[0]], timestamps[0])), Typing(s.text + [word[0]], word[1..], timestamps[1..]))
  {
    var events := Typing(s.text, word, timestamps);
    assert events[1..] == Typing(s.text + [word[0]], word[1..], timestamps[1..]);
  }

  lemma AddedLogsUnfold(word: string, timestamps: seq<string>, log: seq<KeyLog>)
    requires word != [] && |timestamps| == |word|
    ensures PrependAll(AddedLogs(word, timestamps), log, KEY_LOG_CAP)
         == PrependAll(AddedLogs(word[1..], timestamps[1..]), Prepend(KeyLog([word[0]], timestamps[0], Added), log, KEY_LOG_CAP), KEY_LOG_CAP)
  {
    var logs := AddedLogs(word, timestamps);
    assert logs[1..] == AddedLogs(word[1..], timestamps[1..]);
  }

  lemma AppendFirstThenRest(text: string, word: string)
    requires word != []
    ensures text + [word[0]] + word[1..] == text + word
  {
    assert [word[0]] + word[1..] == word;
  }

  lemma {:induction false} TypingPrependsEachCharacter(s: TypewriterState, word: string, timestamps: seq<string>)
    requires s.text == s.previousText
    requires |timestamps| == |word|
    ensures var r := Run(s, Typing(s.text, word, timestamps));
            && r.text == r.previousText == s.text + word
            && r.keyLogs == PrependAll(AddedLogs(word, timestamps), s.keyLogs, KEY_LOG_CAP)
    decreases |word|
  {
    if word == [] {
      assert s.text + word == s.text;
    } else {
      var c, rest, ts, later := word[0], word[1..], timestamps[0], timestamps[1..];
      var t1 := s.text + [c];
      var s1 := TypewriterState(t1, t1, Prepend(KeyLog([c], ts, Added), s.keyLogs, KEY_LOG_CAP));
      var r1 := Run(s1, Typing(t1, rest, later));
      assert Run(s, Typing(s.text, word, timestamps)) == r1 by {
        TypeOneCharacter(s, c, ts);
        TypingUnfolds(s, word, timestamps);
      }
      assert r1.text == r1.previousText == t1 + rest
          && r1.keyLogs == PrependAll(AddedLogs(rest, later), s1.keyLogs, KEY_LOG_CAP) by {
        TypingPrependsEachCharacter(s1, rest, later);
      }
      assert PrependAll(AddedLogs(word, timestamps), s.keyLogs, KEY_LOG_CAP) == r1.keyLogs by {
        AddedLogsUnfold(word, timestamps, s.keyLogs);
      }
      AppendFirstThenRest(s.text, word);
    }
  }

  /**
   * Typing a word one character at a time logs each character as "added": the log then
   * holds the newest 20 of them, last typed first, followed by what was logged before.
   */
  lemma TypingLogsNewestCharacters(s: TypewriterState, word: string, timestamps: seq<string>)
    requires Consistent(s)
    requires |timestamps| == |word|
    ensures var r := Run(s, Typing(s.text, word, timestamps));
            && r.text == r.previousText == s.text + word
            && r.keyLogs == Take(Reverse(AddedLogs(word, timestamps)) + s.keyLogs, KEY_LOG_CAP)
  {
    TypingPrependsEachCharacter(s, word, timestamps);
    PrependAllKeepsNewest(AddedLogs(word, timestamps), s.keyLogs, KEY_LOG_CAP);
  }

  /** The behaviour on the three length cases, and the tail-slice reading of a longer text. */
  lemma TextChangeExamples(ts: string)
    ensures KeyEntry("cat", "cats", ts) == Some(KeyLog("s", ts, Added))
    ensures KeyEntry("cats", "cat", ts) == Some(KeyLog("s", ts, Deleted))
    ensures KeyEntry("cat", "bat", ts).None?
    ensures var r := TextChange(TypewriterState("cat", "cat", []), "bat", ts);
            r.keyLogs == [] && r.previousText == "bat"
    // an insertion in the middle is reported as the tail beyond the old length
    ensures KeyEntry("cat", "cbat", ts) == Some(KeyLog("t", ts, Added))
    // a paste is reported as one entry holding the whole tail
    ensures KeyEntry("", "cat", ts) == Some(KeyLog("cat", ts, Added))
  {
    assert "cats"[3..] == "s";
    assert "cbat"[3..] == "t";
    assert "cats"[3] == 's';
  }

  /** The screen component, with its state variables as fields. */
  class Typewriter {
    var text: string
    var previousText: string
    var keyLogs: seq<KeyLog>

    function State(): TypewriterState
      reads this
    {
      TypewriterState(text, previousText, keyLogs)
    }

    constructor ()
      ensures State() == Initial()
    {
      text, previousText, keyLogs := "", "", [];
    }

    method HandleTextChange(newText: string, timestamp: string)
      modifies this
      ensures State() == TextChange(old(State()), newText, timestamp)
    {
      var currentTime := timestamp;
      if |newText| > |previousText| {
        var addedChar := Slice(newText, |previousText|, |newText|);
        keyLogs := [KeyLog(Or(addedChar, "space"), currentTime, Added)] + Take(keyLogs, KEY_LOG_CAP - 1);
      } else if |newText| < |previousText| {
        var deletedChar := Slice(previousText, |newText|, |newText| + 1);
        keyLogs := [KeyLog(Or(deletedChar, "backspace"), currentTime, Deleted)] + Take(keyLogs, KEY_LOG_CAP - 1);
      }
      text := newText;
      previousText := newText;
    }

    method ClearAll()
      modifies this
      ensures State() == AllCleared(old(State()))
    {
      text := "";
      keyLogs := [];
      previousText := "";
    }

    method ClearLogs()
      modifies this
      ensures State() == LogsCleared(old(State()))
    {
      keyLogs := [];
    }
  }
}
